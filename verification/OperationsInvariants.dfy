/** What every sequential run of the plant keeps. */
module OperationsInvariants {
  import D = Detection
  import opened IncidentLifecycle
  import opened Operations

  datatype Action =
    | Telemetry(x: Sample, id: string, faults: Faults)
    | Simulation(x: Sample, errorCode: string, id: string, faults: Faults)
    | StatusUpdate(id: string, target: Status, faults: Faults)
    | Approval(q: ApprovalRequest, approvalId: string, orderId: string, faults: Faults)
    | WorkDone(orderId: string, c: CompletionRequest, viaService: bool, faults: Faults)
    | Restart

  /** Generated ids are new. */
  ghost predicate Possible(s: Site, a: Action) {
    match a
    case Telemetry(_, id, _) => id !in s.incidents
    case Simulation(_, _, id, _) => id !in s.incidents
    case Approval(_, approvalId, orderId, _) =>
      approvalId !in s.approvals && orderId !in s.orders && orderId !in s.origin
    case StatusUpdate(_, _, _) => true
    case WorkDone(_, _, _, _) => true
    case Restart => true
  }

  /** Restarting the incident service empties the detector, and nothing else. */
  ghost function Do(s: Site, threshold: int, a: Action): Site {
    match a
    case Telemetry(x, id, faults) => Ingest(s, threshold, x, id, faults).site
    case Simulation(x, code, id, faults) => Simulate(s, x, code, id, faults).site
    case StatusUpdate(id, target, faults) => UpdateStatus(s, id, target, faults).site
    case Approval(q, approvalId, orderId, faults) => Decide(s, q, approvalId, orderId, faults).site
    case WorkDone(orderId, c, viaService, faults) => Complete(s, orderId, c, viaService, faults).site
    case Restart => s.(streaks := map[], samples := [])
  }

  ghost predicate Runs(s: Site, threshold: int, actions: seq<Action>, t: Site)
    decreases |actions|
  {
    if actions == [] then s == t
    else Possible(s, actions[0]) && Runs(Do(s, threshold, actions[0]), threshold, actions[1..], t)
  }

  ghost predicate Empty(s: Site) {
    s == Site(map[], map[], map[], map[], map[], [])
  }

  // --------------------------------------------------------------------- incidents

  ghost predicate OpenAutomatic(s: Site, id: string) {
    id in s.incidents && s.incidents[id].source.Automatic? && !s.incidents[id].status.Resolved?
  }

  /** At most one unresolved automatic incident per equipment and sensor. */
  ghost predicate OnePerSensor(s: Site) {
    forall a, b | OpenAutomatic(s, a) && OpenAutomatic(s, b) && s.incidents[a].key == s.incidents[b].key :: a == b
  }

  /** An incident keeps its identity and its status never moves back. */
  ghost predicate Advances(before: Incident, after: Incident) {
    after == before.(status := after.status) && Rank(before.status) <= Rank(after.status)
  }

  ghost predicate AllAdvance(before: map<string, Incident>, after: map<string, Incident>) {
    forall id | id in before :: id in after && Advances(before[id], after[id])
  }

  ghost predicate IncidentsAdvance(s: Site, t: Site) {
    AllAdvance(s.incidents, t.incidents)
  }

  /** The three things an action can do to the incidents. */
  ghost predicate IncidentChange(before: map<string, Incident>, now: map<string, Incident>, i: Incident) {
    || now == before
    || (&& i.id !in before && now == before[i.id := i]
        && (i.source.Automatic? ==> !Unresolved(before, i.key)))
    || (&& i.id in before && now == before[i.id := i] && Advances(before[i.id], i))
  }

  ghost predicate FiledById(s: Site) {
    forall id | id in s.incidents :: s.incidents[id].id == id
  }

  lemma StatusChange(s: Site, id: string, target: Status, faults: Faults) returns (i: Incident)
    requires FiledById(s)
    ensures IncidentChange(s.incidents, UpdateStatus(s, id, target, faults).site.incidents, i)
  {
    if id in s.incidents {
      i := s.incidents[id].(status := target);
      AllowedClimbs(s.incidents[id].status, target);
    } else {
      i := *;
    }
  }

  lemma StepChange(s: Site, threshold: int, a: Action) returns (i: Incident)
    requires FiledById(s) && Possible(s, a)
    ensures IncidentChange(s.incidents, Do(s, threshold, a).incidents, i)
  {
    hide D.Judge, Classify, Unresolved, UpdateStatus, Complete, Decide;
    var t := Do(s, threshold, a);
    match a
    case Telemetry(x, id, _) => if id in t.incidents { i := t.incidents[id]; } else { i := *; }
    case Simulation(x, _, id, _) => i := t.incidents[id];
    case StatusUpdate(id, target, faults) => i := StatusChange(s, id, target, faults);
    case Approval(_, _, _, _) => i := *;
    case Restart => i := *;
    case WorkDone(orderId, c, viaService, faults) => i := CompletionChange(s, orderId, c, viaService, faults);
  }

  lemma CompletionChange(s: Site, orderId: string, c: CompletionRequest, viaService: bool, faults: Faults)
    returns (i: Incident)
    requires FiledById(s)
    ensures IncidentChange(s.incidents, Complete(s, orderId, c, viaService, faults).site.incidents, i)
  {
    hide Unresolved, UpdateStatus;
    i := *;
    if orderId !in s.orders {
      return;
    }
    var o := s.orders[orderId];
    var s1 := s.(orders := s.orders[orderId := Finished(o, c)]);
    if viaService {
      i := StatusChange(s1, o.incident, Resolved, faults);
    } else if o.incident in s.incidents {
      i := s.incidents[o.incident].(status := Resolved);
    }
  }

  lemma ChangeKeepsOnePerSensor(s: Site, t: Site, i: Incident)
    requires OnePerSensor(s) && FiledById(s) && IncidentChange(s.incidents, t.incidents, i)
    ensures OnePerSensor(t) && FiledById(t) && IncidentsAdvance(s, t)
  {
    if i.id !in s.incidents && i.source.Automatic? && t.incidents != s.incidents {
      forall id | OpenAutomatic(s, id) ensures s.incidents[id].key != i.key {
        assert !(!s.incidents[id].status.Resolved? && s.incidents[id].key == i.key);
      }
    }
    forall p, q | OpenAutomatic(t, p) && OpenAutomatic(t, q) && t.incidents[p].key == t.incidents[q].key
      ensures p == q
    {
      assert p in s.incidents ==> OpenAutomatic(s, p);
      assert q in s.incidents ==> OpenAutomatic(s, q);
    }
  }

  lemma StepKeepsOnePerSensor(s: Site, threshold: int, a: Action)
    requires OnePerSensor(s) && FiledById(s) && Possible(s, a)
    ensures var t := Do(s, threshold, a);
            OnePerSensor(t) && FiledById(t) && IncidentsAdvance(s, t)
  {
    hide Do;
    var i := StepChange(s, threshold, a);
    ChangeKeepsOnePerSensor(s, Do(s, threshold, a), i);
  }

  // -------------------------------------------------------------------- work orders

  /** A non-reject decision on the same incident and analysis, whose own checklist
      is used unless it was empty. */
  ghost predicate Grounds(q: ApprovalRequest, o: Order) {
    && !q.decision.Reject? && q.incident == o.incident && q.analysis == o.analysis
    && o.checklist == (if q.checklist != [] then q.checklist else DefaultChecklist()) && o.checklist != []
  }

  ghost predicate Grounded(s: Site, id: string)
    requires id in s.orders
  {
    id in s.origin && s.origin[id] in s.approvals && Grounds(s.approvals[s.origin[id]], s.orders[id])
  }

  /** A completed order has evidence for everything it asked for. */
  ghost predicate Evidenced(o: Order) {
    o.status.Completed? ==>
      && Covers(o.completedItems, o.checklist) && |o.photoKeys| >= 1
      && |o.fieldNote| >= 3 && |o.actualCause| >= 3 && o.recoveryConfirmed
  }

  /** No approval yields two orders. */
  ghost predicate Injective(origin: map<string, string>) {
    forall a, b | a in origin && b in origin && origin[a] == origin[b] :: a == b
  }

  ghost predicate OrdersSound(s: Site) {
    && (forall id | id in s.orders :: Grounded(s, id) && Evidenced(s.orders[id]))
    && s.origin.Keys == s.orders.Keys && Injective(s.origin)
  }

  /** Approvals are never rewritten; an order keeps its terms and stays completed. */
  ghost predicate OrdersAdvance(s: Site, t: Site) {
    && (forall id | id in s.approvals :: id in t.approvals && t.approvals[id] == s.approvals[id])
    && (forall id | id in s.orders ::
          && id in t.orders && t.orders[id].checklist == s.orders[id].checklist
          && t.orders[id].incident == s.orders[id].incident && t.orders[id].analysis == s.orders[id].analysis
          && (s.orders[id].status.Completed? ==> t.orders[id].status.Completed?))
    && (forall id | id in s.origin :: id in t.origin && t.origin[id] == s.origin[id])
  }

  lemma ApprovalStored(s: Site, t: Site, q: ApprovalRequest, approvalId: string)
    requires OrdersSound(s) && approvalId !in s.approvals
    requires t.approvals == s.approvals[approvalId := q] && t.orders == s.orders && t.origin == s.origin
    ensures OrdersSound(t) && OrdersAdvance(s, t)
  {
    hide Grounds, Evidenced, Injective;
    forall id | id in t.orders ensures Grounded(t, id) && Evidenced(t.orders[id]) {
      assert Grounded(s, id) && Evidenced(s.orders[id]);
    }
  }

  lemma InjectiveExtends(origin: map<string, string>, orderId: string, approvalId: string)
    requires Injective(origin) && forall id | id in origin :: origin[id] != approvalId
    ensures Injective(origin[orderId := approvalId])
  {
  }

  lemma OrderOpened(s: Site, t: Site, approvalId: string, orderId: string, o: Order)
    requires OrdersSound(s) && orderId !in s.orders && orderId !in s.origin
    requires t.approvals == s.approvals && t.orders == s.orders[orderId := o]
    requires t.origin == s.origin[orderId := approvalId]
    requires Grounded(t, orderId) && Evidenced(o)
    requires forall id | id in s.origin :: s.origin[id] != approvalId
    ensures OrdersSound(t) && OrdersAdvance(s, t)
  {
    hide Grounds, Evidenced, Injective, Grounded;
    InjectiveExtends(s.origin, orderId, approvalId);
    forall id | id in t.orders ensures Grounded(t, id) && Evidenced(t.orders[id]) {
      if id != orderId {
        assert Grounded(s, id) && Evidenced(s.orders[id]);
        GroundedStays(s, t, id);
      }
    }
    assert t.origin.Keys == t.orders.Keys;
  }

  lemma GroundedStays(s: Site, t: Site, id: string)
    requires id in s.orders && Grounded(s, id) && id in t.orders && t.orders[id] == s.orders[id]
    requires id in t.origin && t.origin[id] == s.origin[id] && t.approvals == s.approvals
    ensures Grounded(t, id)
  {
    hide Grounds;
  }

  lemma OrdersAdvanceTransitively(s: Site, t: Site, u: Site)
    requires OrdersAdvance(s, t) && OrdersAdvance(t, u)
    ensures OrdersAdvance(s, u)
  {
  }

  lemma DecisionKeepsOrdersSound(s: Site, q: ApprovalRequest, approvalId: string, orderId: string, faults: Faults)
    requires OrdersSound(s) && approvalId !in s.approvals && orderId !in s.orders && orderId !in s.origin
    ensures var t := Decide(s, q, approvalId, orderId, faults).site;
            OrdersSound(t) && OrdersAdvance(s, t)
  {
    hide DefaultChecklist, OrdersSound, OrdersAdvance;
    var t := Decide(s, q, approvalId, orderId, faults).site;
    var s1 := s.(approvals := s.approvals[approvalId := q]);
    if t.orders != s.orders {
      ApprovalStored(s, s1, q, approvalId);
      UnusedApproval(s, approvalId);
      OrderOpened(s1, t, approvalId, orderId, t.orders[orderId]);
      OrdersAdvanceTransitively(s, s1, t);
    } else if t.approvals != s.approvals {
      ApprovalStored(s, t, q, approvalId);
    } else {
      OthersKeepOrdersSound(s, t);
    }
  }

  lemma UnusedApproval(s: Site, approvalId: string)
    requires OrdersSound(s) && approvalId !in s.approvals
    ensures forall id | id in s.origin :: s.origin[id] != approvalId
  {
    hide DefaultChecklist;
    forall id | id in s.origin ensures s.origin[id] != approvalId { assert Grounded(s, id); }
  }

  lemma OrderFinished(s: Site, t: Site, orderId: string, o: Order)
    requires OrdersSound(s) && orderId in s.orders && t.approvals == s.approvals && t.origin == s.origin
    requires t.orders == s.orders[orderId := o] && Evidenced(o) && o.status.Completed?
    requires o.incident == s.orders[orderId].incident && o.analysis == s.orders[orderId].analysis
    requires o.checklist == s.orders[orderId].checklist
    ensures OrdersSound(t) && OrdersAdvance(s, t)
  {
    hide DefaultChecklist, Evidenced, Injective, Grounded;
    forall id | id in t.orders ensures Grounded(t, id) && Evidenced(t.orders[id]) {
      assert Grounded(s, id) && Evidenced(s.orders[id]);
      GroundedByTerms(s, t, id);
    }
    assert t.orders.Keys == s.orders.Keys;
  }

  lemma GroundedByTerms(s: Site, t: Site, id: string)
    requires id in s.orders && Grounded(s, id) && id in t.orders && t.approvals == s.approvals && t.origin == s.origin
    requires t.orders[id].incident == s.orders[id].incident && t.orders[id].analysis == s.orders[id].analysis
    requires t.orders[id].checklist == s.orders[id].checklist
    ensures Grounded(t, id)
  {
    hide DefaultChecklist;
  }

  lemma CompletionKeepsOrdersSound(s: Site, orderId: string, c: CompletionRequest, viaService: bool, faults: Faults)
    requires OrdersSound(s)
    ensures var t := Complete(s, orderId, c, viaService, faults).site;
            OrdersSound(t) && OrdersAdvance(s, t)
  {
    hide OrdersSound, OrdersAdvance, Covers, Allowed;
    var t := Complete(s, orderId, c, viaService, faults).site;
    if t.orders != s.orders {
      OrderFinished(s, t, orderId, t.orders[orderId]);
    } else {
      OthersKeepOrdersSound(s, t);
    }
  }

  lemma OthersKeepOrdersSound(s: Site, t: Site)
    requires OrdersSound(s) && t.orders == s.orders && t.approvals == s.approvals && t.origin == s.origin
    ensures OrdersSound(t) && OrdersAdvance(s, t)
  {
    forall id | id in t.orders ensures Grounded(t, id) && Evidenced(t.orders[id]) {
      assert Grounded(s, id) && Evidenced(s.orders[id]);
    }
  }

  lemma StepKeepsOrdersSound(s: Site, threshold: int, a: Action)
    requires OrdersSound(s) && Possible(s, a)
    ensures OrdersSound(Do(s, threshold, a)) && OrdersAdvance(s, Do(s, threshold, a))
  {
    hide OrdersSound, Complete, Decide, Ingest, UpdateStatus;
    match a
    case Approval(q, approvalId, orderId, faults) => DecisionKeepsOrdersSound(s, q, approvalId, orderId, faults);
    case WorkDone(orderId, c, viaService, faults) => CompletionKeepsOrdersSound(s, orderId, c, viaService, faults);
    case Telemetry(_, _, _) => OthersKeepOrdersSound(s, Do(s, threshold, a));
    case Simulation(_, _, _, _) => OthersKeepOrdersSound(s, Do(s, threshold, a));
    case StatusUpdate(_, _, _) => OthersKeepOrdersSound(s, Do(s, threshold, a));
    case Restart => OthersKeepOrdersSound(s, Do(s, threshold, a));
  }

  // --------------------------------------------------------------------------- runs

  ghost predicate DetectorInStep(s: Site, threshold: int) {
    s.streaks == D.After(s.samples, threshold)
  }

  lemma StepKeepsDetector(s: Site, threshold: int, a: Action)
    requires DetectorInStep(s, threshold)
    ensures DetectorInStep(Do(s, threshold, a), threshold)
  {
    hide D.Judge, Classify, Unresolved, UpdateStatus, Complete, Decide;
    if a.Telemetry? && !a.faults.first {
      var signal := D.Signal(a.x.key, Classify(a.x));
      assert (s.samples + [signal])[..|s.samples|] == s.samples;
    }
  }

  ghost predicate Sound(s: Site, threshold: int) {
    OnePerSensor(s) && FiledById(s) && OrdersSound(s) && DetectorInStep(s, threshold)
  }

  lemma AdvancesTransitively(s: Site, t: Site, u: Site)
    requires IncidentsAdvance(s, t) && IncidentsAdvance(t, u) && OrdersAdvance(s, t) && OrdersAdvance(t, u)
    ensures IncidentsAdvance(s, u) && OrdersAdvance(s, u)
  {
    forall id | id in s.incidents ensures id in u.incidents && Advances(s.incidents[id], u.incidents[id]) {
      assert Advances(s.incidents[id], t.incidents[id]) && Advances(t.incidents[id], u.incidents[id]);
    }
  }

  lemma StepIsSound(s: Site, threshold: int, a: Action)
    requires Sound(s, threshold) && Possible(s, a)
    ensures var t := Do(s, threshold, a);
            Sound(t, threshold) && IncidentsAdvance(s, t) && OrdersAdvance(s, t)
  {
    hide Do, OnePerSensor, FiledById, OrdersSound, DetectorInStep;
    StepKeepsOnePerSensor(s, threshold, a);
    StepKeepsOrdersSound(s, threshold, a);
    StepKeepsDetector(s, threshold, a);
  }

  /** Any sequential mixture of telemetry, simulation, status updates, decisions,
      completions and restarts of the incident service, with publishing failures and refused PATCHes: one
      unresolved automatic incident per sensor, statuses that never move back
      (resolved is final), and orders that rest on distinct approvals. */
  lemma {:induction false} SoundOnEveryRun(s: Site, threshold: int, actions: seq<Action>, t: Site)
    requires Sound(s, threshold) && Runs(s, threshold, actions, t)
    ensures Sound(t, threshold) && IncidentsAdvance(s, t) && OrdersAdvance(s, t)
    decreases |actions|
  {
    hide Do, Sound, IncidentsAdvance, OrdersAdvance, Possible;
    if actions == [] {
      NothingChanges(s);
    } else {
      var u := Do(s, threshold, actions[0]);
      StepIsSound(s, threshold, actions[0]);
      SoundOnEveryRun(u, threshold, actions[1..], t);
      AdvancesTransitively(s, u, t);
    }
  }

  lemma NothingChanges(s: Site)
    ensures IncidentsAdvance(s, s) && OrdersAdvance(s, s)
  {
  }

  /** A run from scratch, and what the next telemetry sample does: an incident is
      opened if and only if the key's own readings since the last restart call for
      one and no incident on that key, manual ones included, is unresolved; whenever
      they do, an unresolved incident exists afterwards. A critical reading always
      calls for one. */
  lemma SampleOpensIncidentIff(
    s: Site, threshold: int, actions: seq<Action>, t: Site, x: Sample, id: string, faults: Faults)
    requires Empty(s) && Runs(s, threshold, actions, t) && id !in t.incidents && !faults.first
    ensures var u := Ingest(t, threshold, x, id, faults).site;
            var own := D.Own(t.samples, x.key) + [LevelOf(x)];
            var due := !D.Expected(own, threshold).NoTrigger?;
            && (LevelOf(x).Critical? ==> due) && (LevelOf(x).Normal? ==> !due)
            && (id in u.incidents <==> due && !Unresolved(t.incidents, x.key))
            && (id !in u.incidents ==> u.incidents == t.incidents)
            && (due ==> Unresolved(u.incidents, x.key))
            && (id in u.incidents ==>
                  && u.incidents[id].source.Automatic? && u.incidents[id].key == x.key
                  && u.incidents[id].severity == (if LevelOf(x).Critical? then CriticalSeverity else HighSeverity)
                  && u.incidents[id].errorCode ==
                     (if LevelOf(x).Critical? then "AUTO-CRITICAL" else "AUTO-WARNING-STREAK"))
  {
    hide Runs, D.Judge, Classify, LevelOf;
    ClassifyReads(x);
    SoundOnEveryRun(s, threshold, actions, t);
    var signal := D.Signal(x.key, Classify(x));
    var history := t.samples + [signal];
    assert history[..|t.samples|] == t.samples;
    D.TriggersAsExpected(history, threshold);
    assert D.Own(history, x.key) == D.Own(t.samples, x.key) + [signal.level];
    var v := D.Judge(t.streaks, threshold, signal);
    assert v.trigger == D.Fired(history, threshold);
    var u := Ingest(t, threshold, x, id, faults).site;
    if id in u.incidents {
      assert !u.incidents[id].status.Resolved? && u.incidents[id].key == x.key;
    }
  }
}
