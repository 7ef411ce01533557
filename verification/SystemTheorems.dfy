/** What follows for the whole system, in every reachable state, from the invariant of module SystemSafety. */
module SystemTheorems {
  import opened Wrappers
  import opened Decimal
  import opened Types
  import opened EgressKeys
  import opened Instances
  import opened InstanceSafety
  import opened Protocol
  import opened ProtocolSafety
  import opened SystemSafety
  import Solo = InstanceTheorems
  import R = Registry
  import T = Table
  import P = Ports

  /** The state of the system after any run. */
  ghost function After(w: Setup, labels: seq<Label>): System {
    Reach(w, Start(w), labels)
  }

  lemma {:induction false} ReachInTwo(w: Setup, s: System, a: seq<Label>, b: seq<Label>)
    ensures Reach(w, s, a + b) == Reach(w, Reach(w, s, a), b)
    decreases |a|
  {
    hide Apply;
    if a == [] {
      assert a + b == b;
    } else {
      assert (a + b)[1..] == a[1..] + b;
      ReachInTwo(w, Apply(w, s, a[0]), a[1..], b);
    }
  }

  lemma {:induction false} GuardedInTwo(w: Setup, s: System, a: seq<Label>, b: seq<Label>)
    requires AllGuarded(w, s, a) && AllGuarded(w, Reach(w, s, a), b)
    ensures AllGuarded(w, s, a + b)
    decreases |a|
  {
    hide Apply, Guarded;
    if a == [] {
      assert a + b == b;
    } else {
      assert (a + b)[1..] == a[1..] + b;
      GuardedInTwo(w, Apply(w, s, a[0]), a[1..], b);
    }
  }

  lemma EachIsSafe(w: Setup, s: System, id: ID)
    requires SystemInv(w, s) && id in s.insts
    ensures Safe(s.insts[id])
  {
    hide T.TableInv, RegistryInv, Linked, TokensInv, Safe;
  }

  // ----- uniqueness of egress -----

  /** An instance of the table that takes new dials, its latest report having been answered. */
  predicate ServesByLatest(s: System, id: ID) {
    && id in s.tab.created && id in s.insts
    && s.insts[id].status == Normal
    && 0 < s.insts[id].reporting.reports == s.insts[id].reporting.confirmed
  }

  /** The key in force is the one of the instance's own latest report: no later check has moved it. */
  predicate OwnKey(r: R.Registry, id: ID) {
    id in r.keysByInst && id !in r.rekeyed
  }

  lemma ServingIsSettled(w: Setup, s: System, id: ID)
    requires SystemInv(w, s) && ServesByLatest(s, id)
    ensures Kept(s.reg, id, s.insts[id].reporting.last)
  {
    assert InstLinked(s.reg, s.tab.created.Keys, id, s.insts[id], s.events);
    assert Safe(s.insts[id]);
    hide QueueInv, GenInv, T.TableInv, ConfirmsBelow;
  }

  /** Every instance that serves by its latest report is registered, unless a later check exempted it;
      two of them never hold the same key, and never report the same one unless it is a whitelisted
      empty key. A failed probe never serves. */
  lemma ServingInstancesAreUnique(w: Setup, labels: seq<Label>, a: ID, b: ID)
    requires ValidSetup(w) && a != b
    requires ServesByLatest(After(w, labels), a) && ServesByLatest(After(w, labels), b)
    ensures var r := After(w, labels).reg;
            && (a in r.keysByInst <==> a !in r.exempt)
            && (a in r.keysByInst && r.keysByInst[a] != "" ==>
                  r.keysByInst[a] in r.usedKeys && r.usedKeys[r.keysByInst[a]] == a)
            && (a in r.keysByInst && b in r.keysByInst && r.keysByInst[a] != "" ==>
                  r.keysByInst[a] != r.keysByInst[b])
    ensures var s := After(w, labels);
            var eg, eh := s.insts[a].reporting.last, s.insts[b].reporting.last;
            && (OwnKey(s.reg, a) ==>
                  s.reg.keysByInst[a] == w.keyer(eg) && (w.keyer(eg) != "" || AnyValid(eg)))
            && (OwnKey(s.reg, a) && OwnKey(s.reg, b) && w.keyer(eg) == w.keyer(eh) ==>
                  WhitelistedEmptyKey(w.keyer(eg), eg) && WhitelistedEmptyKey(w.keyer(eh), eh))
  {
    hide Reach;
    EveryRunIsSafe(w, labels);
    var s := After(w, labels);
    ServingIsSettled(w, s, a);
    ServingIsSettled(w, s, b);
    hide Linked, T.TableInv, Safe;
  }

  predicate HandlesConfirm(s: System, id: ID, m: Move, n: nat) {
    && id in s.insts && s.insts[id].pc.Main?
    && ((m == TakePending && s.insts[id].queue.pending != [] && s.insts[id].queue.pending[0].cmd == Confirm(n))
        || (m == Receive && AtSelect(s.insts[id]) && s.insts[id].queue.cmds != []
            && s.insts[id].queue.cmds[0].cmd == Confirm(n)))
  }

  /** A Confirm promotes whatever is Probing. The promoted instance serves by its latest report exactly
      when the Confirm answers that report, or an earlier Confirm that did was handled already. */
  lemma PromotionIsCurrentIffAnswersLatest(w: Setup, labels: seq<Label>, id: ID, m: Move, n: nat)
    requires ValidSetup(w)
    requires var s := After(w, labels);
             HandlesConfirm(s, id, m, n) && s.insts[id].status == Probing && id in s.tab.created
    ensures var s := After(w, labels);
            var t := Apply(w, s, InstanceMoves(id, m));
            && id in t.insts && t.insts[id].status == Normal
            && n <= R.Count(s.reg.accepted, id) <= s.insts[id].reporting.reports
            && (ServesByLatest(t, id) <==>
                  var latest := s.insts[id].reporting.reports;
                  0 < latest && (n == latest || s.insts[id].reporting.confirmed == latest))
  {
    hide Reach, SystemInv, Linked, Apply;
    EveryRunIsSafe(w, labels);
    var s := After(w, labels);
    QueuedConfirmsAreAccepted(w, s, id, m, n);
    PromotionAnswers(w, s, id, m, n);
  }

  lemma QueuedConfirmsAreAccepted(w: Setup, s: System, id: ID, m: Move, n: nat)
    requires SystemInv(w, s) && HandlesConfirm(s, id, m, n)
    ensures n <= R.Count(s.reg.accepted, id) <= s.insts[id].reporting.reports
    ensures s.insts[id].reporting.confirmed <= R.Count(s.reg.accepted, id)
  {
    assert InstLinked(s.reg, s.tab.created.Keys, id, s.insts[id], s.events);
    hide SystemInv, Answered;
    AnsweredBelow(s, id, m, n, R.Count(s.reg.accepted, id));
  }

  lemma AnsweredBelow(s: System, id: ID, m: Move, n: nat, bound: nat)
    requires HandlesConfirm(s, id, m, n) && Answered(s.insts[id], bound)
    ensures n <= bound && s.insts[id].reporting.confirmed <= bound
  {
  }

  lemma PromotionAnswers(w: Setup, s: System, id: ID, m: Move, n: nat)
    requires HandlesConfirm(s, id, m, n) && s.insts[id].status == Probing
    ensures var t := Apply(w, s, InstanceMoves(id, m));
            && t.tab == s.tab && id in t.insts && t.insts[id].status == Normal
            && t.insts[id].reporting == Heard(s.insts[id].reporting, n)
  {
  }

  /** The step puts this command at the end of the instance's channel. */
  predicate Queues(s: System, t: System, id: ID, cmd: Command) {
    && id in s.insts && id in t.insts
    && |t.insts[id].queue.cmds| == |s.insts[id].queue.cmds| + 1
    && t.insts[id].queue.cmds[|s.insts[id].queue.cmds|].cmd == cmd
  }

  lemma DeliverQueues(s: System, to: ID, sent: Command, accept: bool, id: ID, cmd: Command)
    ensures Queues(s, Deliver(s, to, sent, accept), id, cmd) ==> to == id && sent == cmd
  {
  }

  lemma HearQueues(w: Setup, s: System, accept: bool, id: ID, n: nat)
    requires s.events != [] && Queues(s, Hear(w, s, accept), id, Confirm(n))
    ensures var t := Hear(w, s, accept);
            id in t.reg.keysByInst && n == R.Count(t.reg.accepted, id)
  {
    var e := s.events[0];
    var rest := s.(events := s.events[1..]);
    if e.ev.Ready? {
      var (reg, cmd) := R.HandleReady(s.reg, w.keyer, e.id, e.ev.egress, e.report);
      HandleReadyEffect(s.reg, w.keyer, e.id, e.ev.egress, e.report);
      R.AnswerToReport(s.reg, w.keyer, e.id, e.ev.egress, e.report);
      hide R.HandleReady, Deliver, Kept, OnlyAbout;
      DeliverQueues(rest.(reg := reg), e.id, cmd, accept, id, Confirm(n));
      DeliverKeepsRegistry(rest.(reg := reg), e.id, cmd, accept);
      assert Hear(w, s, accept) == Deliver(rest.(reg := reg), e.id, cmd, accept);
    } else {
      HearQueuesNothing(w, s, accept);
    }
  }

  lemma DeliverKeepsRegistry(s: System, id: ID, cmd: Command, accept: bool)
    ensures Deliver(s, id, cmd, accept).reg == s.reg
  {
  }

  lemma HearQueuesNothing(w: Setup, s: System, accept: bool)
    requires s.events != [] && !s.events[0].ev.Ready?
    ensures Hear(w, s, accept).insts == s.insts
  {
    hide R.ReleaseKey, T.Remove;
  }

  lemma CheckQueues(w: Setup, s: System, l: Label, id: ID, cmd: Command)
    requires l.PoolChecksEgress? && Queues(s, CheckEgress(w, s, l.id, l.eg, l.failed, l.accept), id, cmd)
    ensures cmd == Drain
  {
    var newer := T.NewerThan(s.tab.created);
    var (reg, send) := R.ApplyEgress(s.reg, w.keyer, l.id, l.eg, l.failed, newer);
    var checked := Show(s, l.id, l.eg, l.failed).(reg := reg, checking := s.checking - {l.id});
    R.AnswerToCheck(s.reg, w.keyer, l.id, l.eg, l.failed, newer);
    ShowQueues(s, l.id, l.eg, l.failed, id);
    hide R.ApplyEgress, Show, Deliver;
    if send.Some? {
      DeliverQueues(checked, send.value.0, send.value.1, l.accept, id, cmd);
    }
  }

  lemma ShowQueues(s: System, to: ID, eg: Egress, failed: bool, id: ID)
    ensures var t := Show(s, to, eg, failed);
            (id in t.insts <==> id in s.insts) && (id in s.insts ==> t.insts[id].queue == s.insts[id].queue)
  {
  }

  lemma MoveQueuesNothing(w: Setup, s: System, mover: ID, m: Move, id: ID)
    requires id in s.insts
    ensures var t := MoveInstance(w, s, mover, m);
            id in t.insts && |t.insts[id].queue.cmds| <= |s.insts[id].queue.cmds|
  {
    hide Step, Possible;
    if mover == id && Possible(w, s, s.insts[id], m) {
      StepQueuesNothing(w.conf, s.insts[id], m);
      PossibleIsInside(w, s, s.insts[id], m);
    }
  }

  lemma PossibleIsInside(w: Setup, s: System, i: Inst, m: Move)
    ensures Possible(w, s, i, m) ==> !m.Accept?
  {
  }

  lemma StepQueuesNothing(conf: Config, i: Inst, m: Move)
    ensures !m.Accept? ==> |Step(conf, i, m).queue.cmds| <= |i.queue.cmds|
  {
    hide NextDelay, Closed, Adopted, Exited, Rotated, StepMain;
    if i.pc.Main? && Enabled(conf, i, m) {
      MainQueuesNothing(conf, i, m);
    }
  }

  lemma MainQueuesNothing(conf: Config, i: Inst, m: Move)
    requires i.pc.Main? && Enabled(conf, i, m)
    ensures |StepMain(conf, i, m).queue.cmds| <= |i.queue.cmds|
  {
    hide Handle;
    if m == TakePending {
      Solo.HandleKeepsQueue(conf, i.(queue := HandledPending(i.queue)), i.queue.pending[0].cmd);
    } else if m == Receive {
      Solo.HandleKeepsQueue(conf, i.(queue := HandledReceived(i.queue)), i.queue.cmds[0].cmd);
    }
  }

  lemma CreateQueuesNothing(s: System, now: int, id: ID)
    requires id in s.insts && Itoa(s.tab.nextSeq) !in s.insts
    ensures id in CreateOne(s, now).insts && CreateOne(s, now).insts[id] == s.insts[id]
  {
    hide Itoa, NewInst, P.Acquire;
  }

  /** A Confirm gets into a channel only from the coordinator, when it hears a report or sends one again; the
      instance has an entry then, and the Confirm answers the report accepted last. */
  lemma ConfirmsGoToTheRegistered(w: Setup, labels: seq<Label>, l: Label, id: ID, n: nat)
    requires ValidSetup(w) && Queues(After(w, labels), Apply(w, After(w, labels), l), id, Confirm(n))
    ensures var t := Apply(w, After(w, labels), l);
            && (l.PoolHears? || l.PoolReconfirms?)
            && id in t.reg.keysByInst && n == R.Count(t.reg.accepted, id)
  {
    hide SystemInv, Reach;
    EveryRunIsSafe(w, labels);
    IdsAreNew(w, After(w, labels));
    ConfirmIsQueued(w, After(w, labels), l, id, n);
  }

  lemma ConfirmIsQueued(w: Setup, s: System, l: Label, id: ID, n: nat)
    requires Itoa(s.tab.nextSeq) !in s.insts && Queues(s, Apply(w, s, l), id, Confirm(n))
    ensures var t := Apply(w, s, l);
            && (l.PoolHears? || l.PoolReconfirms?)
            && id in t.reg.keysByInst && n == R.Count(t.reg.accepted, id)
  {
    hide Hear, Deliver, CheckEgress, CreateOne, MoveInstance;
    match l {
      case PoolHears(accept) => HearQueues(w, s, accept, id, n);
      case PoolReconfirms(to, accept) =>
        DeliverQueues(s, to, Confirm(R.Count(s.reg.accepted, to)), accept, id, Confirm(n));
        DeliverKeepsRegistry(s, to, Confirm(R.Count(s.reg.accepted, to)), accept);
      case PoolDrains(to, accept) => DeliverQueues(s, to, Drain, accept, id, Confirm(n));
      case PoolStops(to, accept) => DeliverQueues(s, to, Stop, accept, id, Confirm(n));
      case UserSends(to, cmd, accept) => DeliverQueues(s, to, cmd, accept, id, Confirm(n));
      case PoolChecksEgress(to, eg, failed, accept) => CheckQueues(w, s, l, id, Confirm(n));
      case PoolCreates(now) => CreateQueuesNothing(s, now, id);
      case InstanceMoves(mover, m) => MoveQueuesNothing(w, s, mover, m, id);
      case _ =>
    }
  }

  // ----- the registry, the table, the snapshot -----

  /** The used keys and the non-empty entries are inverse maps, and every id in them is in the table. */
  lemma RegistryIsExact(w: Setup, labels: seq<Label>, key: string, id: ID)
    requires ValidSetup(w)
    ensures var s := After(w, labels);
            && (key in s.reg.usedKeys && s.reg.usedKeys[key] == id <==>
                  key != "" && id in s.reg.keysByInst && s.reg.keysByInst[id] == key)
            && s.reg.keysByInst.Keys <= s.tab.created.Keys
            && s.reg.emptyByInst.Keys <= s.tab.created.Keys
  {
    hide Reach;
    EveryRunIsSafe(w, labels);
    hide Linked, T.TableInv, InstsInv;
  }

  /** When a check finds an instance on a key that another owns, nothing moves in the registry and the
      one of the two that was created later is told to drain. */
  lemma CollisionDrainsTheNewer(w: Setup, labels: seq<Label>, id: ID, eg: Egress)
    requires ValidSetup(w)
    requires var s := After(w, labels);
             id in s.tab.created && w.keyer(eg) in s.reg.usedKeys && s.reg.usedKeys[w.keyer(eg)] != id
    ensures var s := After(w, labels);
            var owner := s.reg.usedKeys[w.keyer(eg)];
            var (reg, send) := R.ApplyEgress(s.reg, w.keyer, id, eg, false, T.NewerThan(s.tab.created));
            && reg == s.reg && owner in s.tab.created
            && send.Some? && send.value.1 == Drain
            && (send.value.0 == id || send.value.0 == owner)
            && (send.value.0 == id ==> s.tab.created[owner] <= s.tab.created[id])
            && (send.value.0 == owner ==> s.tab.created[id] < s.tab.created[owner])
  {
    hide Reach, SystemInv, R.ApplyEgress;
    EveryRunIsSafe(w, labels);
    NewerOfTwo(w, After(w, labels), id, eg);
  }

  lemma NewerOfTwo(w: Setup, s: System, id: ID, eg: Egress)
    requires SystemInv(w, s)
    requires id in s.tab.created && w.keyer(eg) in s.reg.usedKeys && s.reg.usedKeys[w.keyer(eg)] != id
    ensures var owner := s.reg.usedKeys[w.keyer(eg)];
            var (reg, send) := R.ApplyEgress(s.reg, w.keyer, id, eg, false, T.NewerThan(s.tab.created));
            && reg == s.reg && owner in s.tab.created
            && send.Some? && send.value.1 == Drain
            && (send.value.0 == id || send.value.0 == owner)
            && (send.value.0 == id ==> s.tab.created[owner] <= s.tab.created[id])
            && (send.value.0 == owner ==> s.tab.created[id] < s.tab.created[owner])
  {
    hide R.ApplyEgress, R.Witnessed, R.Counted, R.Inverse, T.TableInv, Linked, InstsInv, TokensInv;
    R.CollisionDrainsOne(s.reg, s.tab.created.Keys, w.keyer, id, eg, T.NewerThan(s.tab.created));
  }

  /** The snapshot lists exactly the table, in strictly increasing creation numbers. */
  lemma SnapshotIsExact(w: Setup, labels: seq<Label>)
    requires ValidSetup(w)
    ensures var t := After(w, labels).tab;
            && (forall id :: id in t.snap <==> id in t.created)
            && (forall id :: id in t.snap ==> Atoi(id).Some? && Itoa(Atoi(id).value) == id)
            && (forall i, j :: 0 <= i < j < |t.snap| ==>
                  Atoi(t.snap[i]).Some? && Atoi(t.snap[j]).Some? && Atoi(t.snap[i]).value < Atoi(t.snap[j]).value)
  {
    hide Reach, Atoi, Itoa, ViewLess, Linked, RegistryInv, InstsInv;
    EveryRunIsSafe(w, labels);
    var t := After(w, labels).tab;
    forall i, j | 0 <= i < j < |t.snap|
      ensures Atoi(t.snap[i]).Some? && Atoi(t.snap[j]).Some? && Atoi(t.snap[i]).value < Atoi(t.snap[j]).value
    {
      assert T.IsSeqId(t.snap[i], t.nextSeq) && T.IsSeqId(t.snap[j], t.nextSeq);
      EarlierMeansSmaller(t.snap[i], t.snap[j]);
    }
  }

  lemma EarlierMeansSmaller(a: ID, b: ID)
    requires Atoi(a).Some? && Atoi(b).Some? && ViewLess(a, b) < 0
    ensures Atoi(a).value < Atoi(b).value
  {
  }

  /** No two instances of the table share a listen address. */
  lemma AddressesDiffer(w: Setup, labels: seq<Label>, host: string, a: ID, b: ID)
    requires ValidSetup(w) && a != b
    requires a in After(w, labels).tab.created && b in After(w, labels).tab.created
    ensures var t := After(w, labels).tab;
            && a in t.portOf && b in t.portOf
            && P.Address(host, t.ports, t.portOf[a]) != P.Address(host, t.ports, t.portOf[b])
  {
    hide Reach;
    EveryRunIsSafe(w, labels);
    T.ListenAddressesDiffer(After(w, labels).tab, host, a, b);
  }

  /** Delivery touches nothing but one queue of commands. */
  lemma DeliverOnlyTouches(s: System, id: ID, cmd: Command, accept: bool)
    ensures OnlyTouches(s, Deliver(s, id, cmd, accept), {})
  {
  }

  /** All that others can do to an instance: its queue of commands, and the egress it shows. */
  function Touched(i: Inst, j: Inst): Inst {
    i.(queue := j.queue, reporting := i.reporting.(egress := j.reporting.egress))
  }

  /** The step adds at most the given instances, and only touches the others. */
  ghost predicate OnlyTouches(s: System, t: System, added: set<ID>) {
    && t.tab.created.Keys <= s.tab.created.Keys + added
    && s.insts.Keys <= t.insts.Keys
    && (forall x :: x in s.insts && x !in added ==> t.insts[x] == Touched(s.insts[x], t.insts[x]))
  }

  lemma CreateOnlyTouches(s: System, now: int)
    ensures OnlyTouches(s, CreateOne(s, now), {Itoa(s.tab.nextSeq)})
  {
    hide Itoa, NewInst, P.Acquire;
  }

  lemma HearOnlyTouches(w: Setup, s: System, accept: bool)
    requires s.events != []
    ensures OnlyTouches(s, Hear(w, s, accept), {})
  {
    hide OnlyTouches, Deliver, R.HandleReady, R.ReleaseKey;
    var e := s.events[0];
    var rest := s.(events := s.events[1..]);
    if e.ev.Ready? {
      var (reg, cmd) := R.HandleReady(s.reg, w.keyer, e.id, e.ev.egress, e.report);
      DeliverOnlyTouches(rest.(reg := reg), e.id, cmd, accept);
      SameOnlyTouches(s, rest.(reg := reg), Hear(w, s, accept));
    } else {
      ReleasesOnlyTouches(w, s, accept);
    }
  }

  lemma ReleasesOnlyTouches(w: Setup, s: System, accept: bool)
    requires s.events != [] && !s.events[0].ev.Ready?
    ensures OnlyTouches(s, Hear(w, s, accept), {})
  {
    hide R.ReleaseKey, P.Release, T.Drop;
  }

  lemma SameOnlyTouches(s: System, u: System, t: System)
    requires OnlyTouches(u, t, {}) && u.insts == s.insts && u.tab == s.tab
    ensures OnlyTouches(s, t, {})
  {
  }

  lemma CheckOnlyTouches(w: Setup, s: System, id: ID, eg: Egress, failed: bool, accept: bool)
    ensures OnlyTouches(s, CheckEgress(w, s, id, eg, failed, accept), {})
  {
    hide R.ApplyEgress, Deliver;
    var (reg, send) := R.ApplyEgress(s.reg, w.keyer, id, eg, failed, T.NewerThan(s.tab.created));
    var checked := Show(s, id, eg, failed).(reg := reg, checking := s.checking - {id});
    assert OnlyTouches(s, checked, {});
    if send.Some? {
      DeliverOnlyTouches(checked, send.value.0, send.value.1, accept);
      TouchedTwice(s, checked, CheckEgress(w, s, id, eg, failed, accept));
    }
  }

  lemma TouchedTwice(s: System, u: System, t: System)
    requires OnlyTouches(s, u, {}) && OnlyTouches(u, t, {})
    ensures OnlyTouches(s, t, {})
  {
  }

  lemma NothingTouched(s: System, checking: set<ID>)
    ensures OnlyTouches(s, s, {}) && OnlyTouches(s, s.(checking := checking), {})
  {
  }

  lemma TouchedMayGrow(s: System, t: System, added: set<ID>)
    requires OnlyTouches(s, t, {})
    ensures OnlyTouches(s, t, added)
  {
  }

  lemma PoolStepOnlyTouches(w: Setup, s: System, l: Label)
    requires !l.InstanceMoves?
    ensures OnlyTouches(s, Apply(w, s, l), {Itoa(s.tab.nextSeq)})
  {
    hide OnlyTouches, Itoa, Hear, Deliver, CreateOne, CheckEgress;
    NothingTouched(s, {});
    match l {
      case PoolHears(accept) => if s.events != [] { HearOnlyTouches(w, s, accept); }
      case PoolReconfirms(id, accept) => DeliverOnlyTouches(s, id, Confirm(R.Count(s.reg.accepted, id)), accept);
      case PoolDrains(id, accept) => DeliverOnlyTouches(s, id, Drain, accept);
      case PoolChecksEgress(id, eg, failed, accept) => CheckOnlyTouches(w, s, id, eg, failed, accept);
      case PoolReadsNormal(id) => NothingTouched(s, s.checking + {id});
      case PoolEndsCheck =>
      case PoolCreates(now) => CreateOnlyTouches(s, now);
      case PoolStops(id, accept) => DeliverOnlyTouches(s, id, Stop, accept);
      case UserSends(id, cmd, accept) => DeliverOnlyTouches(s, id, cmd, accept);
    }
    if !l.PoolCreates? {
      TouchedMayGrow(s, Apply(w, s, l), {Itoa(s.tab.nextSeq)});
    }
  }

  lemma MoveOnlyOne(w: Setup, s: System, id: ID, m: Move)
    ensures var t := MoveInstance(w, s, id, m);
            && t.tab == s.tab && t.insts.Keys == s.insts.Keys
            && (forall x :: x in s.insts && x != id ==> t.insts[x] == s.insts[x])
            && (id in s.insts ==> t.insts[id] == s.insts[id] || t.insts[id] == Step(w.conf, s.insts[id], m))
  {
    hide Step, Possible;
  }

  /** A new instance never takes the id of one that exists or has existed. */
  lemma IdsAreNew(w: Setup, s: System)
    requires SystemInv(w, s)
    ensures Itoa(s.tab.nextSeq) !in s.insts
  {
    hide T.TableInv, RegistryInv, Linked, TokensInv, Safe;
    T.NewId(s.tab.nextSeq);
  }

  lemma CreatedGrowsByNewIds(w: Setup, s: System, l: Label, id: ID)
    requires SystemInv(w, s) && id in s.insts && id !in s.tab.created
    ensures var t := Apply(w, s, l);
            id in t.insts && id !in t.tab.created
  {
    hide SystemInv, Itoa, Apply;
    IdsAreNew(w, s);
    if l.InstanceMoves? {
      MoveOnlyOne(w, s, l.id, l.move);
      ApplyMove(w, s, l);
    } else {
      PoolStepOnlyTouches(w, s, l);
    }
  }

  /** An instance that has left the table never comes back, and no new one takes its id. */
  lemma {:induction false} IdsAreNeverReused(w: Setup, labels: seq<Label>, more: seq<Label>, id: ID)
    requires ValidSetup(w)
    requires id in After(w, labels).insts && id !in After(w, labels).tab.created
    ensures id !in After(w, labels + more).tab.created
  {
    hide SystemInv, Reach;
    EveryRunIsSafe(w, labels);
    GoneStaysGone(w, After(w, labels), more, id);
    ReachInTwo(w, Start(w), labels, more);
  }

  lemma {:induction false} GoneStaysGone(w: Setup, s: System, more: seq<Label>, id: ID)
    requires SystemInv(w, s) && id in s.insts && id !in s.tab.created
    ensures id !in Reach(w, s, more).tab.created
    decreases |more|
  {
    hide SystemInv, Apply;
    if more != [] {
      CreatedGrowsByNewIds(w, s, more[0], id);
      ApplyKeeps(w, s, more[0]);
      GoneStaysGone(w, Apply(w, s, more[0]), more[1..], id);
    }
  }

  /** Each empty counter is absent, 1 or 2, and is the number of Reprobe answers since the last decision
      that starts the count afresh: at most two fall between such decisions. */
  lemma EmptyCountersAreExact(w: Setup, labels: seq<Label>, id: ID)
    requires ValidSetup(w)
    ensures var r := After(w, labels).reg;
            && R.Count(r.emptyByInst, id) == R.EmptyRun(r.log, id) <= 2
            && (id in r.emptyByInst ==> 1 <= r.emptyByInst[id])
  {
    hide Reach;
    EveryRunIsSafe(w, labels);
    hide Linked, T.TableInv, InstsInv, R.Inverse, R.EmptyRun;
    assert R.Counted(After(w, labels).reg);
  }

  // ----- every instance of the system is an instance on its own -----

  /** The state is one a lone instance of that creation number can reach by some moves. */
  ghost predicate RunsAlone(conf: Config, id: ID, i: Inst) {
    Atoi(id).Some? && exists moves :: i == Solo.After(conf, Atoi(id).value, moves)
  }

  ghost predicate AllRunAlone(w: Setup, s: System) {
    forall id :: id in s.insts ==> RunsAlone(w.conf, id, s.insts[id])
  }

  lemma OneMoreMove(conf: Config, id: ID, i: Inst, m: Move)
    requires RunsAlone(conf, id, i)
    ensures RunsAlone(conf, id, Step(conf, i, m))
  {
    hide Step;
    var n := Atoi(id).value;
    var moves :| i == Solo.After(conf, n, moves);
    Solo.RunInTwo(conf, NewInst(n), moves, [m]);
    Solo.RunLast(conf, i, m);
    assert Step(conf, i, m) == Solo.After(conf, n, moves + [m]);
  }

  lemma DeliverKeepsAlone(w: Setup, s: System, id: ID, cmd: Command, accept: bool)
    requires AllRunAlone(w, s)
    ensures AllRunAlone(w, Deliver(s, id, cmd, accept))
  {
    hide RunsAlone, StepOutside, Step;
    if accept && id in s.insts && |s.insts[id].queue.cmds| < CMD_CAPACITY {
      OutsideIsAStep(w.conf, s.insts[id], Accept(cmd));
      OneMoreMove(w.conf, id, s.insts[id], Accept(cmd));
    }
  }

  lemma CreateKeepsAlone(w: Setup, s: System, now: int)
    requires AllRunAlone(w, s)
    ensures AllRunAlone(w, CreateOne(s, now))
  {
    AtoiItoa(s.tab.nextSeq);
    hide NewInst;
    assert NewInst(s.tab.nextSeq) == Solo.After(w.conf, s.tab.nextSeq, []);
    assert RunsAlone(w.conf, Itoa(s.tab.nextSeq), NewInst(s.tab.nextSeq));
    hide RunsAlone;
  }

  lemma CheckKeepsAlone(w: Setup, s: System, id: ID, eg: Egress, failed: bool, accept: bool)
    requires AllRunAlone(w, s)
    ensures AllRunAlone(w, CheckEgress(w, s, id, eg, failed, accept))
  {
    hide RunsAlone, Deliver, Step, StepOutside, R.ApplyEgress;
    var (reg, send) := R.ApplyEgress(s.reg, w.keyer, id, eg, failed, T.NewerThan(s.tab.created));
    var checked := Show(s, id, eg, failed).(reg := reg, checking := s.checking - {id});
    if id in s.insts && !failed && eg != NO_EGRESS {
      OutsideIsAStep(w.conf, s.insts[id], EgressRead(eg));
      OneMoreMove(w.conf, id, s.insts[id], EgressRead(eg));
    }
    if send.Some? {
      DeliverKeepsAlone(w, checked, send.value.0, send.value.1, accept);
    }
  }

  lemma ApplyKeepsAlone(w: Setup, s: System, l: Label)
    requires AllRunAlone(w, s)
    ensures AllRunAlone(w, Apply(w, s, l))
  {
    hide RunsAlone, Deliver, CreateOne, CheckEgress, Step, Possible, R.HandleReady;
    match l {
      case PoolHears(accept) =>
        if s.events != [] && s.events[0].ev.Ready? {
          var e := s.events[0];
          var (reg, cmd) := R.HandleReady(s.reg, w.keyer, e.id, e.ev.egress, e.report);
          DeliverKeepsAlone(w, s.(events := s.events[1..]).(reg := reg), e.id, cmd, accept);
        }
      case PoolReconfirms(id, accept) => DeliverKeepsAlone(w, s, id, Confirm(R.Count(s.reg.accepted, id)), accept);
      case PoolDrains(id, accept) => DeliverKeepsAlone(w, s, id, Drain, accept);
      case PoolChecksEgress(id, eg, failed, accept) => CheckKeepsAlone(w, s, id, eg, failed, accept);
      case PoolReadsNormal(id) =>
      case PoolEndsCheck =>
      case PoolCreates(now) => CreateKeepsAlone(w, s, now);
      case PoolStops(id, accept) => DeliverKeepsAlone(w, s, id, Stop, accept);
      case UserSends(id, cmd, accept) => DeliverKeepsAlone(w, s, id, cmd, accept);
      case InstanceMoves(id, m) =>
        if id in s.insts {
          OneMoreMove(w.conf, id, s.insts[id], m);
        }
    }
  }

  lemma {:induction false} ReachKeepsAlone(w: Setup, s: System, labels: seq<Label>)
    requires AllRunAlone(w, s)
    ensures AllRunAlone(w, Reach(w, s, labels))
    decreases |labels|
  {
    hide AllRunAlone, Apply;
    if labels != [] {
      ApplyKeepsAlone(w, s, labels[0]);
      ReachKeepsAlone(w, Apply(w, s, labels[0]), labels[1..]);
    }
  }

  /** Whatever the coordinator and the other instances do, an instance behaves as one that stands alone:
      all theorems of module InstanceTheorems hold of every instance of every run of the system. */
  lemma InstancesBehaveAsAlone(w: Setup, labels: seq<Label>, id: ID)
    requires id in After(w, labels).insts
    ensures RunsAlone(w.conf, id, After(w, labels).insts[id])
  {
    ReachKeepsAlone(w, Start(w), labels);
  }

  // ----- the egress shown -----

  /** The valid egress of an instance that a step reads: by its own probe, or by a check. */
  function ReadBy(w: Setup, s: System, l: Label, id: ID): Option<Egress> {
    match l
    case InstanceMoves(x, ProbeDone(eg)) =>
      if x == id && id in s.insts && s.insts[id].pc.ProbingEgress? && eg != NO_EGRESS then Some(eg) else None
    case PoolChecksEgress(x, eg, failed, _) =>
      if x == id && id in s.tab.created && id in s.checking && !failed && eg != NO_EGRESS then Some(eg) else None
    case _ => None
  }

  /** The latest valid egress of an instance that any step of the run reads. */
  ghost function LatestRead(w: Setup, s: System, labels: seq<Label>, id: ID, before: Egress): Egress
    decreases |labels|
  {
    if labels == [] then before
    else LatestRead(w, Apply(w, s, labels[0]), labels[1..], id, Solo.Latest(ReadBy(w, s, labels[0], id), before))
  }

  function ShownBy(s: System, id: ID): Egress {
    if id in s.insts then s.insts[id].reporting.egress else NO_EGRESS
  }

  lemma MoveShows(w: Setup, s: System, l: Label, id: ID)
    requires l.InstanceMoves?
    ensures ShownBy(Apply(w, s, l), id) == Solo.Latest(ReadBy(w, s, l, id), ShownBy(s, id))
  {
    hide Step, Apply, MoveInstance;
    ApplyMove(w, s, l);
    MoveOnlyOne(w, s, l.id, l.move);
    if l.id == id && id in s.insts {
      MoveExact(w, s, id, l.move);
      Solo.StepShowsWhatItReads(w.conf, s.insts[id], l.move);
    }
  }

  lemma MoveExact(w: Setup, s: System, id: ID, m: Move)
    requires id in s.insts
    ensures var t := MoveInstance(w, s, id, m);
            id in t.insts && t.insts[id] == if Possible(w, s, s.insts[id], m) then Step(w.conf, s.insts[id], m) else s.insts[id]
  {
    hide Possible, Step;
  }

  lemma DeliverShows(s: System, id: ID, cmd: Command, accept: bool, x: ID)
    ensures ShownBy(Deliver(s, id, cmd, accept), x) == ShownBy(s, x)
  {
  }

  lemma CheckShows(w: Setup, s: System, id: ID, eg: Egress, failed: bool, accept: bool, x: ID)
    requires id in s.insts
    ensures ShownBy(CheckEgress(w, s, id, eg, failed, accept), x)
         == if x == id && !failed && eg != NO_EGRESS then eg else ShownBy(s, x)
  {
    hide R.ApplyEgress, Deliver;
    var (reg, send) := R.ApplyEgress(s.reg, w.keyer, id, eg, failed, T.NewerThan(s.tab.created));
    if send.Some? {
      DeliverShows(Show(s, id, eg, failed).(reg := reg, checking := s.checking - {id}), send.value.0, send.value.1, accept, x);
    }
  }

  lemma HearShows(w: Setup, s: System, accept: bool, x: ID)
    requires s.events != []
    ensures ShownBy(Hear(w, s, accept), x) == ShownBy(s, x)
  {
    hide R.HandleReady, R.ReleaseKey, T.Remove, Deliver;
    var e := s.events[0];
    if e.ev.Ready? {
      var (reg, cmd) := R.HandleReady(s.reg, w.keyer, e.id, e.ev.egress, e.report);
      DeliverShows(s.(events := s.events[1..]).(reg := reg), e.id, cmd, accept, x);
    }
  }

  lemma NewShowsNothing(seqNo: nat)
    ensures NewInst(seqNo).reporting.egress == NO_EGRESS
  {
  }

  lemma CreateShows(w: Setup, s: System, now: int, x: ID)
    requires SystemInv(w, s)
    ensures ShownBy(CreateOne(s, now), x) == ShownBy(s, x)
  {
    hide SystemInv, NewInst, Itoa, P.Acquire;
    IdsAreNew(w, s);
    NewShowsNothing(s.tab.nextSeq);
  }

  lemma SendShows(w: Setup, s: System, l: Label, id: ID)
    requires l.PoolReconfirms? || l.PoolDrains? || l.PoolStops? || l.UserSends? || l.PoolReadsNormal? || l.PoolEndsCheck?
    ensures ShownBy(Apply(w, s, l), id) == ShownBy(s, id)
  {
    hide Deliver;
    match l {
      case PoolReconfirms(x, accept) => DeliverShows(s, x, Confirm(R.Count(s.reg.accepted, x)), accept, id);
      case PoolDrains(x, accept) => DeliverShows(s, x, Drain, accept, id);
      case PoolStops(x, accept) => DeliverShows(s, x, Stop, accept, id);
      case UserSends(x, cmd, accept) => DeliverShows(s, x, cmd, accept, id);
      case _ =>
    }
  }

  lemma CheckLabelShows(w: Setup, s: System, l: Label, id: ID)
    requires l.PoolChecksEgress? && s.tab.created.Keys <= s.insts.Keys
    ensures ShownBy(Apply(w, s, l), id) == Solo.Latest(ReadBy(w, s, l, id), ShownBy(s, id))
  {
    hide CheckEgress, ShownBy;
    if l.id in s.tab.created {
      CheckShows(w, s, l.id, l.eg, l.failed, l.accept, id);
    }
  }

  lemma StepShows(w: Setup, s: System, l: Label, id: ID)
    requires SystemInv(w, s)
    ensures ShownBy(Apply(w, s, l), id) == Solo.Latest(ReadBy(w, s, l, id), ShownBy(s, id))
  {
    hide SystemInv, Hear, CreateOne, ShownBy;
    if l.InstanceMoves? {
      MoveShows(w, s, l, id);
    } else if l.PoolChecksEgress? {
      TableIsKnown(w, s);
      CheckLabelShows(w, s, l, id);
    } else if l.PoolHears? {
      if s.events != [] {
        HearShows(w, s, l.accept, id);
      }
    } else if l.PoolCreates? {
      CreateShows(w, s, l.now, id);
    } else {
      SendShows(w, s, l, id);
    }
  }

  lemma TableIsKnown(w: Setup, s: System)
    requires SystemInv(w, s)
    ensures s.tab.created.Keys <= s.insts.Keys
  {
    hide T.TableInv, RegistryInv, InstsInv, TokensInv, EventsOk;
  }

  lemma {:induction false} RunShows(w: Setup, s: System, labels: seq<Label>, id: ID)
    requires SystemInv(w, s)
    ensures ShownBy(Reach(w, s, labels), id) == LatestRead(w, s, labels, id, ShownBy(s, id))
    decreases |labels|
  {
    hide SystemInv, Apply, ReadBy, ShownBy;
    if labels != [] {
      StepShows(w, s, labels[0], id);
      ApplyKeeps(w, s, labels[0]);
      RunShows(w, Apply(w, s, labels[0]), labels[1..], id);
    }
  }

  /** The egress an instance shows is the latest valid one that its own probe or a check has read; a
      failed probe and a failed check leave it as it was. */
  lemma EgressShownIsTheLatestRead(w: Setup, labels: seq<Label>, id: ID)
    requires ValidSetup(w) && id in After(w, labels).insts
    ensures After(w, labels).insts[id].reporting.egress == LatestRead(w, Start(w), labels, id, NO_EGRESS)
  {
    hide SystemInv, Reach;
    StartHolds(w);
    RunShows(w, Start(w), labels, id);
  }

  /** In the whole system, too, Disabled is left only by handling Enable. */
  lemma DisabledLeavesOnlyByEnable(w: Setup, labels: seq<Label>, l: Label, id: ID)
    requires ValidSetup(w)
    requires id in After(w, labels).insts && After(w, labels).insts[id].status == Disabled
    ensures var s := After(w, labels);
            var t := Apply(w, s, l);
            && id in t.insts
            && (t.insts[id].status != Disabled ==> l.InstanceMoves? && l.id == id && HandlesEnable(s.insts[id], l.move))
  {
    hide Reach, SystemInv;
    EveryRunIsSafe(w, labels);
    DisabledStays(w, After(w, labels), l, id);
  }

  predicate HandlesEnable(i: Inst, m: Move) {
    || (m == TakePending && i.queue.pending != [] && i.queue.pending[0].cmd == Enable)
    || (m == Receive && i.queue.cmds != [] && i.queue.cmds[0].cmd == Enable)
  }

  lemma DisabledStays(w: Setup, s: System, l: Label, id: ID)
    requires SystemInv(w, s) && id in s.insts && s.insts[id].status == Disabled
    ensures var t := Apply(w, s, l);
            && id in t.insts
            && (t.insts[id].status != Disabled ==> l.InstanceMoves? && l.id == id && HandlesEnable(s.insts[id], l.move))
  {
    hide Apply, SystemInv;
    if l.InstanceMoves? {
      DisabledMoves(w, s, l.id, l.move, id);
      ApplyMove(w, s, l);
    } else {
      IdsAreNew(w, s);
      PoolStepOnlyTouches(w, s, l);
    }
  }

  lemma ApplyMove(w: Setup, s: System, l: Label)
    requires l.InstanceMoves?
    ensures Apply(w, s, l) == MoveInstance(w, s, l.id, l.move)
  {
  }

  lemma DisabledMoves(w: Setup, s: System, mover: ID, m: Move, id: ID)
    requires SystemInv(w, s) && id in s.insts && s.insts[id].status == Disabled
    ensures var t := MoveInstance(w, s, mover, m);
            && id in t.insts
            && (t.insts[id].status != Disabled ==> mover == id && HandlesEnable(s.insts[id], m))
  {
    assert Safe(s.insts[id]);
    hide SystemInv, Step, Safe, MoveInstance;
    MoveOnlyOne(w, s, mover, m);
    Solo.DisabledStays(w.conf, s.insts[id], m);
  }

  // ----- no cycle of waits -----

  /** Never more instances build or start clients than the semaphore allows, and each token is held by one. */
  lemma TokensAreHeldOnceEach(w: Setup, labels: seq<Label>)
    requires ValidSetup(w)
    ensures var s := After(w, labels);
            s.tokens == |set id | id in s.insts && HoldsToken(s.insts[id].pc)| <= w.replayConcurrency
  {
    hide Reach;
    EveryRunIsSafe(w, labels);
    hide Linked, T.TableInv, InstsInv, RegistryInv;
  }

  /** An instance that waits for room in the event channel waits with all tokens in the hands of others,
      and can send as soon as the coordinator hears one event, whether or not any command is accepted. */
  lemma EmittersWaitOnlyForTheCoordinator(w: Setup, labels: seq<Label>, id: ID, accept: bool)
    requires ValidSetup(w)
    requires id in After(w, labels).insts && After(w, labels).insts[id].pc.Emitting?
    ensures var s := After(w, labels);
            && s.tokens == |set x | x in s.insts && x != id && HoldsToken(s.insts[x].pc)|
            && (|s.events| < EVENT_CAPACITY ==> Possible(w, s, s.insts[id], Sent))
            && (|s.events| >= EVENT_CAPACITY && s.checking == {} ==>
                  var t := Apply(w, s, PoolHears(accept));
                  id in t.insts && Possible(w, t, t.insts[id], Sent))
            && |s.events| <= EVENT_CAPACITY
  {
    hide Reach, SystemInv;
    EventsFit(w, labels);
    EveryRunIsSafe(w, labels);
    var s := After(w, labels);
    OthersHoldTheTokens(w, s, id);
    if |s.events| >= EVENT_CAPACITY && s.checking == {} {
      HearingMakesRoom(w, s, id, accept);
    }
  }

  lemma OthersHoldTheTokens(w: Setup, s: System, id: ID)
    requires SystemInv(w, s) && id in s.insts && !HoldsToken(s.insts[id].pc)
    ensures s.tokens == |set x | x in s.insts && x != id && HoldsToken(s.insts[x].pc)|
  {
    hide Linked, T.TableInv, InstsInv, RegistryInv;
    assert Holders(s.insts) == set x | x in s.insts && x != id && HoldsToken(s.insts[x].pc);
  }

  lemma HearingMakesRoom(w: Setup, s: System, id: ID, accept: bool)
    requires s.events != [] && |s.events| <= EVENT_CAPACITY && s.checking == {}
    requires id in s.insts && s.insts[id].pc.Emitting?
    ensures var t := Apply(w, s, PoolHears(accept));
            id in t.insts && Possible(w, t, t.insts[id], Sent)
  {
    hide Hear;
    HearOnlyTouches(w, s, accept);
    HearTakesOne(w, s, accept);
  }

  lemma HearTakesOne(w: Setup, s: System, accept: bool)
    requires s.events != []
    ensures Hear(w, s, accept).events == s.events[1..]
  {
    hide R.HandleReady, R.ReleaseKey, T.Remove, StepOutside;
  }

  /** An instance that waits for a token waits for one that builds or starts a client, and that one can
      go on without the event channel and without another token: when its attempt ends either way, the
      token is free. */
  lemma TokenWaitersWaitOnlyForStarts(w: Setup, labels: seq<Label>, id: ID) returns (holder: ID)
    requires ValidSetup(w)
    requires id in After(w, labels).insts && After(w, labels).insts[id].pc.AwaitingToken?
    requires After(w, labels).tokens >= w.replayConcurrency
    ensures var s := After(w, labels);
            && holder in s.insts && holder != id
            && (s.insts[holder].pc.Building? || s.insts[holder].pc.Starting?)
            && (forall m :: EndsAttempt(s.insts[holder].pc, m) ==> FreesToken(w, s, holder, m, id))
            && (s.insts[holder].pc.Building? ==>
                  && Possible(w, s, s.insts[holder], BuildOk)
                  && MoveInstance(w, s, holder, BuildOk).insts[holder].pc.Starting?)
  {
    hide Reach, SystemInv, FreesToken, MoveInstance, Possible, Step;
    EveryRunIsSafe(w, labels);
    var s := After(w, labels);
    holder := SomeHolder(w, s, id);
    forall m | EndsAttempt(s.insts[holder].pc, m)
      ensures FreesToken(w, s, holder, m, id)
    {
      EndingFreesToken(w, s, holder, m, id);
    }
    BuildingStarts(w, s, holder);
  }

  lemma SomeHolder(w: Setup, s: System, id: ID) returns (holder: ID)
    requires ValidSetup(w) && SystemInv(w, s) && s.tokens >= w.replayConcurrency
    requires id in s.insts && s.insts[id].pc.AwaitingToken?
    ensures holder in s.insts && holder != id && HoldsToken(s.insts[holder].pc)
    ensures s.tokens == w.replayConcurrency
  {
    hide T.TableInv, RegistryInv, InstsInv, Linked;
    assert Holders(s.insts) != {};
    holder :| holder in Holders(s.insts);
  }

  lemma BuildingStarts(w: Setup, s: System, holder: ID)
    requires holder in s.insts
    ensures s.insts[holder].pc.Building? ==>
              && Possible(w, s, s.insts[holder], BuildOk)
              && MoveInstance(w, s, holder, BuildOk).insts[holder].pc.Starting?
  {
  }

  /** The holder can make the move, and then the other can take a token. */
  predicate FreesToken(w: Setup, s: System, holder: ID, m: Move, id: ID) {
    && holder in s.insts
    && Possible(w, s, s.insts[holder], m)
    && var t := MoveInstance(w, s, holder, m);
    && id in t.insts && Possible(w, t, t.insts[id], TakeToken)
  }

  lemma EndingFreesToken(w: Setup, s: System, holder: ID, m: Move, id: ID)
    requires ValidSetup(w) && s.tokens == w.replayConcurrency
    requires id in s.insts && s.insts[id].pc.AwaitingToken?
    requires holder in s.insts && holder != id && EndsAttempt(s.insts[holder].pc, m)
    ensures FreesToken(w, s, holder, m, id)
  {
    hide Step;
    assert EventsAfter(s.events, holder, s.insts[holder], m) == s.events;
  }

  predicate EndsAttempt(pc: Pc, m: Move) {
    (pc.Building? && m == BuildFails) || (pc.Starting? && (m == StartFails || m == StartOk))
  }

  ghost predicate EventsBounded(s: System) {
    |s.events| <= EVENT_CAPACITY
  }

  lemma ApplyKeepsBound(w: Setup, s: System, l: Label)
    requires EventsBounded(s)
    ensures EventsBounded(Apply(w, s, l))
  {
    hide R.HandleReady, R.ApplyEgress, Step, StepOutside, T.Create, T.Remove;
  }

  lemma {:induction false} ReachKeepsBound(w: Setup, s: System, labels: seq<Label>)
    requires EventsBounded(s)
    ensures EventsBounded(Reach(w, s, labels))
    decreases |labels|
  {
    hide EventsBounded, Apply;
    if labels != [] {
      ApplyKeepsBound(w, s, labels[0]);
      ReachKeepsBound(w, Apply(w, s, labels[0]), labels[1..]);
    }
  }

  lemma EventsFit(w: Setup, labels: seq<Label>)
    ensures EventsBounded(After(w, labels))
  {
    ReachKeepsBound(w, Start(w), labels);
  }

  /** Events in the channel come from instances of the table, and Stopped is the last of its instance. */
  lemma StoppedIsLast(w: Setup, labels: seq<Label>, j: nat, k: nat)
    requires ValidSetup(w)
    requires j < k < |After(w, labels).events|
    requires After(w, labels).events[j].id == After(w, labels).events[k].id
    ensures var s := After(w, labels);
            && s.events[k].id in s.tab.created && s.events[k].id in s.insts
            && s.events[j].ev != Stopped
            && (s.events[k].ev == Stopped ==> s.insts[s.events[k].id].pc.Gone?)
  {
    hide Reach;
    EveryRunIsSafe(w, labels);
    var s := After(w, labels);
    assert EventsOk(s.reg, s.tab.created.Keys, s.insts, s.events);
    assert InSequence(s.events[j], s.events[k]);
    assert EventFits(s.reg, s.insts[s.events[k].id], s.events[k]);
    hide T.TableInv, InstsInv, RegistryInv;
  }
}
