/** The egress-key registry of the coordinator: who owns which key, who has been asked to probe again. */
module Registry {
  import opened Wrappers
  import opened Decimal
  import opened EgressKeys
  import opened Instances

  const PROBE_FAIL_LIMIT: nat := 3

  /** What the coordinator decided about an instance, oldest first: history only. */
  datatype Verdict = Accepted | Exempted | AskedToReprobe | ReplayedAsEmpty | ReplayedAsDuplicate | KeyReleased | Removed

  datatype Decision = Decision(id: ID, verdict: Verdict)

  /** The three maps of the source, and as history: the highest report heard and accepted from each
      instance, those an egress check exempted or rekeyed since, the egress the entry was made for, and
      the decisions. */
  datatype Registry = Registry(
    usedKeys: map<string, ID>, keysByInst: map<ID, string>, emptyByInst: map<ID, nat>,
    heard: map<ID, nat>, accepted: map<ID, nat>, exempt: set<ID>, rekeyed: set<ID>,
    seen: map<ID, Egress>, log: seq<Decision>)

  const EMPTY := Registry(map[], map[], map[], map[], map[], {}, {}, map[], [])

  /** Map lookup that gives the zero value for a missing key. */
  function Text(m: map<string, string>, k: string): string {
    if k in m then m[k] else ""
  }

  function Count(m: map<ID, nat>, id: ID): nat {
    if id in m then m[id] else 0
  }

  function Logged(r: Registry, id: ID, v: Verdict): Registry {
    r.(log := r.log + [Decision(id, v)])
  }

  function ReleaseKey(r: Registry, id: ID): Registry {
    if id !in r.keysByInst then r
    else
      var key := r.keysByInst[id];
      r.(keysByInst := r.keysByInst - {id},
         usedKeys := if Text(r.usedKeys, key) == id then r.usedKeys - {key} else r.usedKeys)
  }

  /** An accepted or exempted report: the empty counter is forgotten, the entry is the key. */
  function Settle(r: Registry, id: ID, eg: Egress, report: nat): Registry {
    var freed := ReleaseKey(r, id);
    freed.(emptyByInst := freed.emptyByInst - {id},
           accepted := freed.accepted[id := report],
           exempt := freed.exempt - {id},
           rekeyed := freed.rekeyed - {id},
           seen := freed.seen[id := eg])
  }

  function Own(r: Registry, id: ID, key: string): Registry {
    r.(usedKeys := r.usedKeys[key := id], keysByInst := r.keysByInst[id := key])
  }

  function Heard(r: Registry, id: ID, report: nat): Registry {
    r.(heard := r.heard[id := report])
  }

  /** Exempt from uniqueness: the empty entry only marks the instance as decided. */
  function Exempt(r: Registry, id: ID, eg: Egress, report: nat): Registry {
    var settled := Settle(r, id, eg, report);
    Logged(settled.(keysByInst := settled.keysByInst[id := ""]), id, Exempted)
  }

  /** A failed probe: probe again, or give up the identity when the limit is reached. */
  function HandleEmpty(r: Registry, id: ID): (Registry, Command) {
    var n := Count(r.emptyByInst, id) + 1;
    if n < PROBE_FAIL_LIMIT
    then (Logged(r.(emptyByInst := r.emptyByInst[id := n]), id, AskedToReprobe), Reprobe)
    else (Logged(r.(emptyByInst := r.emptyByInst - {id}), id, ReplayedAsEmpty), Replay)
  }

  function Accept(r: Registry, id: ID, key: string, eg: Egress, report: nat): Registry {
    Logged(Own(Settle(r, id, eg, report), id, key), id, Accepted)
  }

  predicate OwnedByAnother(r: Registry, key: string, id: ID) {
    key in r.usedKeys && r.usedKeys[key] != id
  }

  function HandleReady(r: Registry, keyer: Keyer, id: ID, eg: Egress, report: nat): (Registry, Command) {
    var r0 := Heard(r, id, report);
    var key := keyer(eg);
    if WhitelistedEmptyKey(key, eg) then (Exempt(r0, id, eg, report), Confirm(report))
    else if key == "" then HandleEmpty(r0, id)
    else if OwnedByAnother(r0, key, id) then (Logged(r0, id, ReplayedAsDuplicate), Replay)
    else (Accept(r0, id, key, eg, report), Confirm(report))
  }

  /** Lost, Drained, Replayed and Disabled events free the key. */
  function HandleRelease(r: Registry, id: ID): Registry {
    var freed := ReleaseKey(r, id);
    Logged(freed.(rekeyed := freed.rekeyed - {id}), id, KeyReleased)
  }

  function Forget(r: Registry, id: ID): Registry {
    var freed := ReleaseKey(r, id);
    Logged(freed.(emptyByInst := freed.emptyByInst - {id}), id, Removed)
  }

  /** What hearing an event does to the registry. */
  function HandleEvent(r: Registry, keyer: Keyer, id: ID, ev: Event, report: nat): Registry {
    match ev
    case Ready(eg) => HandleReady(r, keyer, id, eg, report).0
    case Stopped => Forget(r, id)
    case _ => HandleRelease(r, id)
  }

  /** A check that finds nothing to compare exempts the instance: its key is freed, it stays Normal. */
  function ExemptByCheck(r: Registry, id: ID): Registry {
    var freed := ReleaseKey(r, id);
    freed.(exempt := freed.exempt + {id})
  }

  /** A check that finds a new key moves the entry to it. */
  function Rekey(r: Registry, id: ID, key: string, eg: Egress): Registry {
    var freed := ReleaseKey(r, id);
    Own(freed, id, key).(exempt := freed.exempt - {id}, rekeyed := freed.rekeyed + {id}, seen := freed.seen[id := eg])
  }

  /** A periodic check of one instance. `newer` says whether an owner was created after a claimant. */
  function ApplyEgress(r: Registry, keyer: Keyer, id: ID, eg: Egress, failed: bool, newer: (ID, ID) -> bool)
    : (Registry, Option<(ID, Command)>)
  {
    var key := if failed then "" else keyer(eg);
    if WhitelistedEmptyKey(key, eg) then (ExemptByCheck(r, id), None)
    else if key == "" then (r, Some((id, Drain)))
    else if Text(r.keysByInst, id) == key then (r, None)
    else if OwnedByAnother(r, key, id) then
      (r, Some((if newer(r.usedKeys[key], id) then r.usedKeys[key] else id, Drain)))
    else (Rekey(r, id, key, eg), None)
  }

  // ----- what the coordinator answers -----

  /** A report is confirmed exactly if it has a key that no other instance owns, or no key but a valid address.
      Then its entry is its key and its empty counter is gone; otherwise no entry moves. A taken key is told
      to replay; a failed probe is asked to probe again twice, and to replay the third time. */
  lemma AnswerToReport(r: Registry, keyer: Keyer, id: ID, eg: Egress, report: nat)
    ensures var (t, cmd) := HandleReady(r, keyer, id, eg, report);
            var key := keyer(eg);
            var valid := eg.v4 != Invalid || eg.v6 != Invalid;
            var taken := key in r.usedKeys && r.usedKeys[key] != id;
            && (cmd == Confirm(report) <==> if key == "" then valid else !taken)
            && (cmd == Confirm(report) ==>
                  && id in t.keysByInst && t.keysByInst[id] == key && id !in t.emptyByInst
                  && (key != "" ==> key in t.usedKeys && t.usedKeys[key] == id))
            && (cmd != Confirm(report) ==> t.keysByInst == r.keysByInst && t.usedKeys == r.usedKeys)
            && (key != "" && taken ==> cmd == Replay && t.emptyByInst == r.emptyByInst)
            && (key == "" && !valid ==>
                  if Count(r.emptyByInst, id) < 2
                  then cmd == Reprobe && t.emptyByInst == r.emptyByInst[id := Count(r.emptyByInst, id) + 1]
                  else cmd == Replay && t.emptyByInst == r.emptyByInst - {id})
            && (forall x :: x != id ==> (x in t.keysByInst <==> x in r.keysByInst))
            && (forall x :: x != id && x in r.keysByInst ==> t.keysByInst[x] == r.keysByInst[x])
  {
    var r0 := Heard(r, id, report);
    assert r0.keysByInst == r.keysByInst && r0.usedKeys == r.usedKeys && r0.emptyByInst == r.emptyByInst;
    ConfirmedEntries(r0, id, keyer(eg), eg, report);
    AskedEntries(r0, id);
    hide Heard, Accept, Exempt, HandleEmpty, Logged;
  }

  lemma SettledEntries(r: Registry, id: ID, eg: Egress, report: nat)
    ensures var t := Settle(r, id, eg, report);
            t.keysByInst == r.keysByInst - {id} && t.emptyByInst == r.emptyByInst - {id}
  {
  }

  lemma ConfirmedEntries(r: Registry, id: ID, key: string, eg: Egress, report: nat)
    ensures var t := Accept(r, id, key, eg, report);
            && t.keysByInst == (r.keysByInst - {id})[id := key] && t.emptyByInst == r.emptyByInst - {id}
            && key in t.usedKeys && t.usedKeys[key] == id
    ensures var t := Exempt(r, id, eg, report);
            t.keysByInst == (r.keysByInst - {id})[id := ""] && t.emptyByInst == r.emptyByInst - {id}
  {
    SettledEntries(r, id, eg, report);
    hide Settle;
  }

  lemma AskedEntries(r: Registry, id: ID)
    ensures var (t, cmd) := HandleEmpty(r, id);
            && t.keysByInst == r.keysByInst && t.usedKeys == r.usedKeys
            && if Count(r.emptyByInst, id) < 2
               then cmd == Reprobe && t.emptyByInst == r.emptyByInst[id := Count(r.emptyByInst, id) + 1]
               else cmd == Replay && t.emptyByInst == r.emptyByInst - {id}
    ensures var t := Logged(r, id, ReplayedAsDuplicate);
            t.keysByInst == r.keysByInst && t.usedKeys == r.usedKeys && t.emptyByInst == r.emptyByInst
  {
  }

  /** A check sends nothing exactly if the key is whitelisted, unchanged, or owned by nobody else. A failed
      check, or an empty key without a valid address, leaves the registry and drains the instance checked; a
      whitelisted key frees the entry; a new key that nobody else owns becomes the entry. */
  lemma AnswerToCheck(r: Registry, keyer: Keyer, id: ID, eg: Egress, failed: bool, newer: (ID, ID) -> bool)
    ensures var (t, send) := ApplyEgress(r, keyer, id, eg, failed, newer);
            var key := if failed then "" else keyer(eg);
            var valid := eg.v4 != Invalid || eg.v6 != Invalid;
            var same := id in r.keysByInst && r.keysByInst[id] == key;
            var taken := key in r.usedKeys && r.usedKeys[key] != id;
            && (send == None <==> if key == "" then valid else same || !taken)
            && (key == "" && !valid ==> t == r && send == Some((id, Drain)))
            && (key == "" && valid ==> id !in t.keysByInst && id in t.exempt)
            && (key != "" && same ==> t == r)
            && (key != "" && !same && taken ==>
                  t == r && send == Some((if newer(r.usedKeys[key], id) then r.usedKeys[key] else id, Drain)))
            && (key != "" && !same && !taken ==>
                  && id in t.keysByInst && t.keysByInst[id] == key
                  && key in t.usedKeys && t.usedKeys[key] == id && id !in t.exempt)
            && (forall x :: x != id ==> (x in t.keysByInst <==> x in r.keysByInst))
            && (forall x :: x != id && x in r.keysByInst ==> t.keysByInst[x] == r.keysByInst[x])
  {
    CheckedEntries(r, id, if failed then "" else keyer(eg), eg);
    hide Rekey, ExemptByCheck;
  }

  lemma ReleasedEntries(r: Registry, id: ID)
    ensures ReleaseKey(r, id).keysByInst == r.keysByInst - {id}
    ensures ReleaseKey(r, id).exempt == r.exempt
  {
  }

  lemma CheckedEntries(r: Registry, id: ID, key: string, eg: Egress)
    ensures var t := Rekey(r, id, key, eg);
            && t.keysByInst == (r.keysByInst - {id})[id := key]
            && key in t.usedKeys && t.usedKeys[key] == id && t.exempt == r.exempt - {id}
    ensures var t := ExemptByCheck(r, id);
            t.keysByInst == r.keysByInst - {id} && t.exempt == r.exempt + {id}
  {
    ReleasedEntries(r, id);
    hide ReleaseKey;
  }

  // ----- the two maps are inverse -----

  /** The used keys and the non-empty entries are inverse maps, an exempted id has no entry, and only ids
      in the table occur. */
  ghost predicate Inverse(r: Registry, ids: set<ID>) {
    && "" !in r.usedKeys
    && (forall k :: k in r.usedKeys ==> r.usedKeys[k] in r.keysByInst && r.keysByInst[r.usedKeys[k]] == k)
    && (forall id :: id in r.keysByInst && r.keysByInst[id] != "" ==>
          r.keysByInst[id] in r.usedKeys && r.usedKeys[r.keysByInst[id]] == id)
    && (forall id :: id in r.exempt ==> id !in r.keysByInst)
    && r.keysByInst.Keys <= ids
    && r.emptyByInst.Keys <= ids
  }

  /** What every entry says about the egress it was made for: its key, and an empty key was whitelisted. */
  ghost predicate Witnessed(r: Registry, keyer: Keyer) {
    forall id :: id in r.keysByInst ==>
      && id in r.seen
      && r.keysByInst[id] == keyer(r.seen[id])
      && (r.keysByInst[id] == "" ==> WhitelistedEmptyKey("", r.seen[id]))
  }

  lemma ReleaseKeyEffect(r: Registry, ids: set<ID>, id: ID)
    requires Inverse(r, ids) && "" !in ids
    ensures var f := ReleaseKey(r, id);
            && Inverse(f, ids)
            && f.keysByInst == r.keysByInst - {id}
            && (forall k :: k in f.usedKeys <==> k in r.usedKeys && r.usedKeys[k] != id)
            && (forall k :: k in f.usedKeys ==> f.usedKeys[k] == r.usedKeys[k])
  {
    if id in r.keysByInst {
      var key := r.keysByInst[id];
      if key in r.usedKeys {
        assert Text(r.usedKeys, key) == r.usedKeys[key];
      }
    }
  }

  lemma OwnKeepsInverse(r: Registry, ids: set<ID>, id: ID, key: string)
    requires Inverse(r, ids) && id in ids && key != ""
    requires id !in r.keysByInst && id !in r.exempt && key !in r.usedKeys
    ensures Inverse(Own(r, id, key), ids)
  {
  }

  /** After the id's own key is freed, a key that nobody else owned is free. */
  lemma ClaimKeepsInverse(r: Registry, ids: set<ID>, id: ID, key: string)
    requires Inverse(r, ids) && "" !in ids && id in ids && key != ""
    requires id !in r.exempt && (key in r.usedKeys ==> r.usedKeys[key] == id)
    ensures Inverse(Own(ReleaseKey(r, id), id, key), ids)
  {
    ReleaseKeyEffect(r, ids, id);
    OwnKeepsInverse(ReleaseKey(r, id), ids, id, key);
  }

  lemma ExemptKeepsInverse(r: Registry, ids: set<ID>, keyer: Keyer, id: ID, eg: Egress, report: nat)
    requires Inverse(r, ids) && "" !in ids && id in ids && Witnessed(r, keyer) && WhitelistedEmptyKey(keyer(eg), eg)
    ensures Inverse(Exempt(r, id, eg, report), ids) && Witnessed(Exempt(r, id, eg, report), keyer)
  {
    ReleaseKeyEffect(r, ids, id);
  }

  /** The fields that `Inverse` reads. */
  lemma SameMapsSameInverse(r: Registry, t: Registry, ids: set<ID>)
    requires Inverse(r, ids)
    requires t.usedKeys == r.usedKeys && t.keysByInst == r.keysByInst && t.exempt == r.exempt
    requires t.emptyByInst.Keys <= r.emptyByInst.Keys
    ensures Inverse(t, ids)
  {
  }

  /** After the id's own key is freed, a key that nobody else owned is claimed. */
  function Claimed(r: Registry, id: ID, key: string): Registry {
    Own(ReleaseKey(r.(exempt := r.exempt - {id}), id), id, key)
  }

  lemma ClaimedKeepsInverse(r: Registry, ids: set<ID>, id: ID, key: string)
    requires Inverse(r, ids) && "" !in ids && id in ids && key != "" && !OwnedByAnother(r, key, id)
    ensures Inverse(Claimed(r, id, key), ids)
    ensures Claimed(r, id, key).keysByInst == (r.keysByInst - {id})[id := key]
  {
    ReleaseKeyEffect(r.(exempt := r.exempt - {id}), ids, id);
    ClaimKeepsInverse(r.(exempt := r.exempt - {id}), ids, id, key);
  }

  lemma ReleaseIgnoresExemptions(r: Registry, id: ID, exempt: set<ID>)
    ensures var f, g := ReleaseKey(r, id), ReleaseKey(r.(exempt := exempt), id);
            && g.usedKeys == f.usedKeys && g.keysByInst == f.keysByInst && g.emptyByInst == f.emptyByInst
            && g.exempt == exempt && f.exempt == r.exempt && f.seen == r.seen
  {
  }

  /** Accepting and rekeying both claim the key, for the egress just seen. */
  lemma BothClaim(r: Registry, id: ID, key: string, eg: Egress, report: nat)
    ensures var c, t := Claimed(r, id, key), Accept(r, id, key, eg, report);
            && t.usedKeys == c.usedKeys && t.keysByInst == c.keysByInst && t.exempt == c.exempt
            && t.emptyByInst.Keys <= c.emptyByInst.Keys && t.seen == r.seen[id := eg]
    ensures var c, t := Claimed(r, id, key), Rekey(r, id, key, eg);
            && t.usedKeys == c.usedKeys && t.keysByInst == c.keysByInst && t.exempt == c.exempt
            && t.emptyByInst.Keys <= c.emptyByInst.Keys && t.seen == r.seen[id := eg]
  {
    hide ReleaseKey;
    ReleaseIgnoresExemptions(r, id, r.exempt - {id});
  }

  lemma ClaimIsWitnessed(r: Registry, t: Registry, keyer: Keyer, id: ID, eg: Egress)
    requires Witnessed(r, keyer) && keyer(eg) != ""
    requires t.keysByInst == (r.keysByInst - {id})[id := keyer(eg)] && t.seen == r.seen[id := eg]
    ensures Witnessed(t, keyer)
  {
  }

  lemma AcceptKeepsInverse(r: Registry, ids: set<ID>, keyer: Keyer, id: ID, key: string, eg: Egress, report: nat)
    requires Inverse(r, ids) && "" !in ids && id in ids && Witnessed(r, keyer)
    requires key == keyer(eg) != "" && !OwnedByAnother(r, key, id)
    ensures Inverse(Accept(r, id, key, eg, report), ids) && Witnessed(Accept(r, id, key, eg, report), keyer)
  {
    hide Inverse, Witnessed, Claimed, Accept;
    BothClaim(r, id, key, eg, report);
    ClaimedKeepsInverse(r, ids, id, key);
    SameMapsSameInverse(Claimed(r, id, key), Accept(r, id, key, eg, report), ids);
    ClaimIsWitnessed(r, Accept(r, id, key, eg, report), keyer, id, eg);
  }

  lemma HandleReadyKeepsInverse(r: Registry, ids: set<ID>, keyer: Keyer, id: ID, eg: Egress, report: nat)
    requires Inverse(r, ids) && "" !in ids && id in ids && Witnessed(r, keyer)
    ensures Inverse(HandleReady(r, keyer, id, eg, report).0, ids)
    ensures Witnessed(HandleReady(r, keyer, id, eg, report).0, keyer)
  {
    hide Inverse, Accept, Exempt, WhitelistedEmptyKey;
    var r0 := Heard(r, id, report);
    SameMapsSameInverse(r, r0, ids);
    var key := keyer(eg);
    if WhitelistedEmptyKey(key, eg) {
      ExemptKeepsInverse(r0, ids, keyer, id, eg, report);
    } else if key == "" {
      HandleEmptyKeepsInverse(r0, ids, id);
    } else if !OwnedByAnother(r0, key, id) {
      AcceptKeepsInverse(r0, ids, keyer, id, key, eg, report);
    } else {
      SameMapsSameInverse(r0, Logged(r0, id, ReplayedAsDuplicate), ids);
    }
  }

  lemma HandleEmptyKeepsInverse(r: Registry, ids: set<ID>, id: ID)
    requires Inverse(r, ids) && id in ids
    ensures Inverse(HandleEmpty(r, id).0, ids)
  {
  }

  lemma ReleaseKeepsInverse(r: Registry, ids: set<ID>, keyer: Keyer, id: ID)
    requires Inverse(r, ids) && "" !in ids && Witnessed(r, keyer)
    ensures Inverse(HandleRelease(r, id), ids) && Witnessed(HandleRelease(r, id), keyer)
    ensures Inverse(Forget(r, id), ids - {id}) && Witnessed(Forget(r, id), keyer)
  {
    ReleaseKeyEffect(r, ids, id);
  }

  lemma RekeyKeepsInverse(r: Registry, ids: set<ID>, keyer: Keyer, id: ID, key: string, eg: Egress)
    requires Inverse(r, ids) && "" !in ids && id in ids && Witnessed(r, keyer)
    requires key == keyer(eg) != "" && !OwnedByAnother(r, key, id)
    ensures Inverse(Rekey(r, id, key, eg), ids) && Witnessed(Rekey(r, id, key, eg), keyer)
  {
    hide Inverse, Witnessed, Claimed, Rekey;
    BothClaim(r, id, key, eg, 0);
    ClaimedKeepsInverse(r, ids, id, key);
    SameMapsSameInverse(Claimed(r, id, key), Rekey(r, id, key, eg), ids);
    ClaimIsWitnessed(r, Rekey(r, id, key, eg), keyer, id, eg);
  }

  lemma ExemptByCheckKeepsInverse(r: Registry, ids: set<ID>, keyer: Keyer, id: ID)
    requires Inverse(r, ids) && "" !in ids && Witnessed(r, keyer)
    ensures Inverse(ExemptByCheck(r, id), ids) && Witnessed(ExemptByCheck(r, id), keyer)
  {
    ReleaseKeyEffect(r, ids, id);
  }

  lemma ApplyEgressKeepsInverse(r: Registry, ids: set<ID>, keyer: Keyer, id: ID, eg: Egress, failed: bool,
                                newer: (ID, ID) -> bool)
    requires Inverse(r, ids) && "" !in ids && id in ids && Witnessed(r, keyer)
    ensures var (t, send) := ApplyEgress(r, keyer, id, eg, failed, newer);
            Inverse(t, ids) && Witnessed(t, keyer) && (send.Some? ==> send.value.0 in ids)
  {
    var key := if failed then "" else keyer(eg);
    if WhitelistedEmptyKey(key, eg) {
      ExemptByCheckKeepsInverse(r, ids, keyer, id);
    } else if key != "" && !OwnedByAnother(r, key, id) {
      RekeyKeepsInverse(r, ids, keyer, id, key, eg);
    }
  }

  /** A check that finds an instance on a key owned by another moves nothing and drains one of the two. */
  lemma CollisionDrainsOne(r: Registry, ids: set<ID>, keyer: Keyer, id: ID, eg: Egress, newer: (ID, ID) -> bool)
    requires Inverse(r, ids) && keyer(eg) in r.usedKeys && r.usedKeys[keyer(eg)] != id
    ensures var owner := r.usedKeys[keyer(eg)];
            && owner in ids
            && ApplyEgress(r, keyer, id, eg, false, newer) == (r, Some((if newer(owner, id) then owner else id, Drain)))
  {
  }

  /** Ids that own a key own different ones. */
  lemma OwnersAreDistinct(r: Registry, ids: set<ID>, a: ID, b: ID)
    requires Inverse(r, ids) && a in r.keysByInst && b in r.keysByInst && a != b
    requires r.keysByInst[a] != ""
    ensures r.keysByInst[a] != r.keysByInst[b]
  {
  }

  // ----- empty reports -----

  /** How many times, by the log, an instance was asked to probe again since the last decision that
      starts it afresh. Conflicts and releases in between change nothing. */
  function EmptyRun(log: seq<Decision>, id: ID): nat
    decreases |log|
  {
    if log == [] then 0
    else
      var before, d := log[..|log| - 1], log[|log| - 1];
      if d.id != id then EmptyRun(before, id)
      else match d.verdict
        case AskedToReprobe => EmptyRun(before, id) + 1
        case ReplayedAsDuplicate => EmptyRun(before, id)
        case KeyReleased => EmptyRun(before, id)
        case _ => 0
  }

  lemma EmptyRunAfter(log: seq<Decision>, d: Decision, id: ID)
    ensures EmptyRun(log + [d], id) ==
            if d.id != id || d.verdict == ReplayedAsDuplicate || d.verdict == KeyReleased then EmptyRun(log, id)
            else if d.verdict == AskedToReprobe then EmptyRun(log, id) + 1
            else 0
  {
    assert (log + [d])[..|log|] == log;
  }

  /** The counter is the log's count, and never reaches the limit. */
  ghost predicate Counted(r: Registry) {
    && (forall id :: Count(r.emptyByInst, id) == EmptyRun(r.log, id))
    && (forall id :: id in r.emptyByInst ==> 1 <= r.emptyByInst[id] < PROBE_FAIL_LIMIT)
  }

  /** One more decision, and a counter that moved as that decision says. */
  lemma DecisionKeepsCount(r: Registry, t: Registry, d: Decision)
    requires Counted(r)
    requires t.log == r.log + [d]
    requires forall id :: id != d.id ==> Count(t.emptyByInst, id) == Count(r.emptyByInst, id)
    requires Count(t.emptyByInst, d.id) == EmptyRun(t.log, d.id)
    requires forall id :: id in t.emptyByInst ==> 1 <= t.emptyByInst[id] < PROBE_FAIL_LIMIT
    ensures Counted(t)
  {
    forall id: ID
      ensures Count(t.emptyByInst, id) == EmptyRun(t.log, id)
    {
      EmptyRunAfter(r.log, d, id);
      assert Count(r.emptyByInst, id) == EmptyRun(r.log, id);
    }
  }

  lemma HandleEmptyKeepsCount(r: Registry, id: ID)
    requires Counted(r)
    ensures Counted(HandleEmpty(r, id).0)
  {
    var t := HandleEmpty(r, id).0;
    var d := Decision(id, if Count(r.emptyByInst, id) + 1 < PROBE_FAIL_LIMIT then AskedToReprobe else ReplayedAsEmpty);
    assert t.log == r.log + [d];
    EmptyRunAfter(r.log, d, id);
    assert Count(r.emptyByInst, id) == EmptyRun(r.log, id);
    DecisionKeepsCount(r, t, d);
  }

  lemma SettlingKeepsCount(r: Registry, t: Registry, id: ID, v: Verdict)
    requires Counted(r)
    requires t.log == r.log + [Decision(id, v)] && t.emptyByInst == r.emptyByInst - {id}
    requires v == Accepted || v == Exempted || v == Removed
    ensures Counted(t)
  {
    EmptyRunAfter(r.log, Decision(id, v), id);
    DecisionKeepsCount(r, t, Decision(id, v));
  }

  lemma NoCountKeepsCount(r: Registry, t: Registry, id: ID, v: Verdict)
    requires Counted(r)
    requires t.log == r.log + [Decision(id, v)] && t.emptyByInst == r.emptyByInst
    requires v == ReplayedAsDuplicate || v == KeyReleased
    ensures Counted(t)
  {
    EmptyRunAfter(r.log, Decision(id, v), id);
    assert Count(r.emptyByInst, id) == EmptyRun(r.log, id);
    DecisionKeepsCount(r, t, Decision(id, v));
  }

  lemma HandleReadyKeepsCount(r: Registry, keyer: Keyer, id: ID, eg: Egress, report: nat)
    requires Counted(r)
    ensures Counted(HandleReady(r, keyer, id, eg, report).0)
  {
    var r0 := Heard(r, id, report);
    var key := keyer(eg);
    if WhitelistedEmptyKey(key, eg) {
      SettlingKeepsCount(r0, Exempt(r0, id, eg, report), id, Exempted);
    } else if key == "" {
      HandleEmptyKeepsCount(r0, id);
    } else if OwnedByAnother(r0, key, id) {
      NoCountKeepsCount(r0, Logged(r0, id, ReplayedAsDuplicate), id, ReplayedAsDuplicate);
    } else {
      SettlingKeepsCount(r0, Accept(r0, id, key, eg, report), id, Accepted);
    }
  }

  lemma ReleaseKeepsCount(r: Registry, id: ID)
    requires Counted(r)
    ensures Counted(HandleRelease(r, id))
    ensures Counted(Forget(r, id))
  {
    NoCountKeepsCount(r, HandleRelease(r, id), id, KeyReleased);
    SettlingKeepsCount(r, Forget(r, id), id, Removed);
  }

  lemma ApplyEgressKeepsCount(r: Registry, keyer: Keyer, id: ID, eg: Egress, failed: bool, newer: (ID, ID) -> bool)
    requires Counted(r)
    ensures Counted(ApplyEgress(r, keyer, id, eg, failed, newer).0)
  {
    var t := ApplyEgress(r, keyer, id, eg, failed, newer).0;
    assert t.log == r.log && t.emptyByInst == r.emptyByInst;
  }

  /** The verdict on a failed probe is exactly determined by the log: the third in a run is a replay. */
  lemma ThirdEmptyIsReplayed(r: Registry, keyer: Keyer, id: ID, eg: Egress, report: nat)
    requires Counted(r) && keyer(eg) == "" && !AnyValid(eg)
    ensures EmptyRun(r.log, id) <= 2
    ensures HandleReady(r, keyer, id, eg, report).1 == (if EmptyRun(r.log, id) == 2 then Replay else Reprobe)
  {
    assert Count(r.emptyByInst, id) == EmptyRun(r.log, id);
  }
}
