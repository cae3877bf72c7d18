/** What each request does to the plant, said in terms of the request, the state it
    found and the state it left, without the handler's own branches. */
module OperationsEffects {
  import D = Detection
  import opened IncidentLifecycle
  import opened Operations
  import opened OperationsInvariants

  // ---------------------------------------------------------------------- incidents

  /** Everything but the incidents stays as it was. */
  ghost predicate OnlyIncidentsChange(s: Site, t: Site) {
    t == s.(incidents := t.incidents)
  }

  /** One incident is added or replaced, all others stay. */
  ghost predicate OnlyThisChanges(s: Site, t: Site, id: string) {
    && id in t.incidents && t.incidents.Keys == s.incidents.Keys + {id}
    && (forall other | other in s.incidents && other != id :: t.incidents[other] == s.incidents[other])
  }

  /** A sample is due for an incident if it is critical, or completes the streak. */
  ghost predicate Due(s: Site, threshold: int, x: Sample) {
    LevelOf(x).Critical? || (LevelOf(x).Warning? && D.StreakOf(s.streaks, x.key) + 1 >= threshold)
  }

  ghost predicate AutomaticFrom(i: Incident, id: string, x: Sample) {
    && i.id == id && i.key == x.key && i.status.Detected? && i.source.Automatic?
    && (LevelOf(x).Critical? ==> i.severity.CriticalSeverity? && i.errorCode == "AUTO-CRITICAL")
    && (LevelOf(x).Warning? ==> i.severity.HighSeverity? && i.errorCode == "AUTO-WARNING-STREAK")
  }

  /** A sample whose publication fails leaves no trace. Otherwise it is evaluated: a
      warning that is not due yet adds one to its sensor's streak, everything else
      ends the streak, other sensors are untouched, and a new incident is stored if
      and only if the sample is due and its sensor has no unresolved one. */
  ghost predicate SampleTaken(s: Site, t: Site, code: nat, threshold: int, x: Sample, id: string, faults: Faults) {
    var opens := Due(s, threshold, x) && !Unresolved(s.incidents, x.key);
    if faults.first then t == s && code == 500
    else
      && t == s.(streaks := t.streaks, samples := t.samples, incidents := t.incidents)
      && t.samples == s.samples + [D.Signal(x.key, LevelOf(x))]
      && (forall k | k != x.key :: D.StreakOf(t.streaks, k) == D.StreakOf(s.streaks, k))
      && D.StreakOf(t.streaks, x.key) ==
         (if LevelOf(x).Warning? && !Due(s, threshold, x) then D.StreakOf(s.streaks, x.key) + 1 else 0)
      && (opens ==> OnlyThisChanges(s, t, id) && AutomaticFrom(t.incidents[id], id, x))
      && (!opens ==> t.incidents == s.incidents)
      && code == (if opens && faults.second then 500 else 201)
  }

  lemma JudgedAsDue(s: Site, threshold: int, x: Sample)
    ensures var v := D.Judge(s.streaks, threshold, D.Signal(x.key, LevelOf(x)));
            && (v.trigger.NoTrigger? <==> !Due(s, threshold, x))
            && (LevelOf(x).Critical? ==> CodeOf(v.trigger) == "AUTO-CRITICAL")
            && (LevelOf(x).Warning? && Due(s, threshold, x) ==> CodeOf(v.trigger) == "AUTO-WARNING-STREAK")
            && (forall k | k != x.key :: D.StreakOf(v.streaks, k) == D.StreakOf(s.streaks, k))
            && D.StreakOf(v.streaks, x.key) ==
               (if LevelOf(x).Warning? && !Due(s, threshold, x) then D.StreakOf(s.streaks, x.key) + 1 else 0)
  {
    hide LevelOf;
  }

  lemma SampleIsTaken(s: Site, threshold: int, x: Sample, id: string, faults: Faults)
    ensures var r := Ingest(s, threshold, x, id, faults);
            SampleTaken(s, r.site, r.code, threshold, x, id, faults)
  {
    hide Unresolved, LevelOf, Classify, D.Judge, D.StreakOf, CodeOf;
    ClassifyReads(x);
    JudgedAsDue(s, threshold, x);
    var t := Ingest(s, threshold, x, id, faults).site;
    if t.incidents != s.incidents { assert t.incidents.Keys == s.incidents.Keys + {id}; }
  }

  /** A simulated incident is stored as a manual one, whatever else is open. */
  ghost predicate IncidentSimulated(
    s: Site, t: Site, code: nat, x: Sample, errorCode: string, id: string, faults: Faults)
  {
    && OnlyIncidentsChange(s, t) && OnlyThisChanges(s, t, id)
    && t.incidents[id].id == id && t.incidents[id].key == x.key && t.incidents[id].status.Detected?
    && t.incidents[id].source.Manual? && t.incidents[id].errorCode == errorCode
    && (t.incidents[id].severity.CriticalSeverity? <==> 5.0 * x.measured >= 6.0 * x.threshold)
    && code == (if faults.first then 500 else 201)
  }

  lemma SimulationIsStored(s: Site, x: Sample, errorCode: string, id: string, faults: Faults)
    ensures var r := Simulate(s, x, errorCode, id, faults);
            IncidentSimulated(s, r.site, r.code, x, errorCode, id, faults)
  {
  }

  /** A status update reaches its incident if the graph allows it, and changes
      nothing otherwise. */
  ghost predicate StatusPatched(s: Site, t: Site, code: nat, id: string, target: Status, faults: Faults) {
    if id !in s.incidents then t == s && code == 404
    else if target !in Allowed(s.incidents[id].status) then t == s && code == 409
    else
      && OnlyIncidentsChange(s, t) && OnlyThisChanges(s, t, id)
      && t.incidents[id].status == target && t.incidents[id] == s.incidents[id].(status := target)
      && code == (if faults.first then 500 else 200)
  }

  lemma PatchReachesTheIncident(s: Site, id: string, target: Status, faults: Faults)
    ensures var r := UpdateStatus(s, id, target, faults);
            StatusPatched(s, r.site, r.code, id, target, faults)
  {
    hide Allowed;
  }

  // -------------------------------------------------------------------- work orders

  /** An approval as it is, or one with changes that names them. */
  ghost predicate CallsForWork(q: ApprovalRequest) {
    q.decision.Approve? || (q.decision.ApproveWithChanges? && q.checklist != [])
  }

  ghost predicate NewOrder(o: Order, q: ApprovalRequest) {
    && o.status.Open? && o.incident == q.incident && o.analysis == q.analysis
    && (q.checklist != [] ==> o.checklist == q.checklist) && (q.checklist == [] ==> |o.checklist| == 4)
    && o.completedItems == [] && o.photoKeys == [] && o.fieldNote == "" && o.actualCause == "" && !o.recoveryConfirmed
  }

  /** A decision with a proper comment is always stored; it opens a work order if and
      only if it calls for work and was published. */
  ghost predicate DecisionTaken(
    s: Site, t: Site, code: nat, q: ApprovalRequest, approvalId: string, orderId: string, faults: Faults)
  {
    var opens := CallsForWork(q) && !faults.first;
    if |q.comment| < 3 || |q.comment| > 2000 then t == s && code == 422
    else
      && t == s.(approvals := t.approvals, orders := t.orders, origin := t.origin)
      && t.approvals == s.approvals[approvalId := q]
      && (opens ==>
            && t.orders.Keys == s.orders.Keys + {orderId} && NewOrder(t.orders[orderId], q)
            && (forall o | o in s.orders && o != orderId :: t.orders[o] == s.orders[o])
            && t.origin == s.origin[orderId := approvalId])
      && (!opens ==> t.orders == s.orders && t.origin == s.origin)
      && code == (if faults.first then 500
                  else if opens then (if faults.second then 500 else 201)
                  else if q.decision.Reject? then 201 else 422)
  }

  lemma DecisionOpensOrderIff(s: Site, q: ApprovalRequest, approvalId: string, orderId: string, faults: Faults)
    ensures var r := Decide(s, q, approvalId, orderId, faults);
            DecisionTaken(s, r.site, r.code, q, approvalId, orderId, faults)
  {
    var r := Decide(s, q, approvalId, orderId, faults);
    if r.site.orders != s.orders { assert r.site.orders.Keys == s.orders.Keys + {orderId}; }
  }

  /** The request is well-formed, confirms recovery and covers the order's checklist. */
  ghost predicate CompletesOrder(s: Site, orderId: string, c: CompletionRequest) {
    && |c.photoKeys| >= 1 && 3 <= |c.fieldNote| <= 4000 && 3 <= |c.actualCause| <= 2000
    && orderId in s.orders && c.recoveryConfirmed
    && (forall item | item in s.orders[orderId].checklist :: item in c.completedItems)
  }

  ghost predicate CarriesEvidence(before: Order, after: Order, c: CompletionRequest) {
    && after.incident == before.incident && after.analysis == before.analysis && after.checklist == before.checklist
    && after.status.Completed? && after.recoveryConfirmed
    && after.completedItems == c.completedItems && after.photoKeys == c.photoKeys
    && after.fieldNote == c.fieldNote && after.actualCause == c.actualCause
  }

  /** The incident is resolved and all others stay; or, when it may not be resolved,
      all stay. */
  ghost predicate ResolvedIf(s: Site, t: Site, id: string, may: bool) {
    && (may ==>
          && id in s.incidents && OnlyThisChanges(s, t, id)
          && t.incidents[id] == s.incidents[id].(status := Resolved))
    && (!may ==> t.incidents == s.incidents)
  }

  /** Why a completion is turned down, in the order in which that is found out. */
  ghost function Refusal(s: Site, orderId: string, c: CompletionRequest): nat {
    if |c.photoKeys| < 1 || !(3 <= |c.fieldNote| <= 4000) || !(3 <= |c.actualCause| <= 2000) then 422
    else if orderId !in s.orders then 404 else 409
  }

  /** A completion that meets the order leaves it completed with exactly its evidence.
      Its incident, if there is one, is resolved; through the service only if it was
      in progress. Anything else changes nothing. */
  ghost predicate WorkCompleted(
    s: Site, t: Site, code: nat, orderId: string, c: CompletionRequest, viaService: bool, faults: Faults)
  {
    if !CompletesOrder(s, orderId, c) then t == s && code == Refusal(s, orderId, c)
    else
      var id := s.orders[orderId].incident;
      var may := id in s.incidents && (viaService ==> s.incidents[id].status.InProgress?);
      && t == s.(orders := t.orders, incidents := t.incidents)
      && t.orders.Keys == s.orders.Keys && CarriesEvidence(s.orders[orderId], t.orders[orderId], c)
      && (forall o | o in s.orders && o != orderId :: t.orders[o] == s.orders[o])
      && ResolvedIf(s, t, id, may)
      && code == (if faults.second || (viaService && (!may || faults.first)) then 500 else 200)
  }

  lemma CompletionResolvesTheIncident(
    s: Site, orderId: string, c: CompletionRequest, viaService: bool, faults: Faults)
    ensures var r := Complete(s, orderId, c, viaService, faults);
            WorkCompleted(s, r.site, r.code, orderId, c, viaService, faults)
  {
    hide UpdateStatus, Allowed;
    if CompletesOrder(s, orderId, c) {
      var s1 := s.(orders := s.orders[orderId := Finished(s.orders[orderId], c)]);
      PatchReachesTheIncident(s1, s.orders[orderId].incident, Resolved, faults);
      OnlyWorkCanBeResolved();
    }
  }

  lemma OnlyWorkCanBeResolved()
    ensures forall status: Status :: Resolved in Allowed(status) <==> status.InProgress?
  {
  }

  // ---------------------------------------------------------- across several requests

  /** An approval, its order and its completion: from the decision on an incident in
      progress to the incident resolved, and its sensor free to raise the next one. */
  lemma WorkFreesTheSensor(
    s: Site, threshold: int, q: ApprovalRequest, a: string, o: string, c: CompletionRequest, viaService: bool,
    x: Sample, id: string)
    requires Sound(s, threshold) && a !in s.approvals && o !in s.orders && o !in s.origin && id !in s.incidents
    requires 3 <= |q.comment| <= 2000 && CallsForWork(q)
    requires |c.photoKeys| >= 1 && 3 <= |c.fieldNote| <= 4000 && 3 <= |c.actualCause| <= 2000 && c.recoveryConfirmed
    requires q.checklist != [] && forall item | item in q.checklist :: item in c.completedItems
    requires q.incident in s.incidents && s.incidents[q.incident].status.InProgress?
    requires x.key == s.incidents[q.incident].key && LevelOf(x).Critical?
    requires forall other | other in s.incidents && other != q.incident && s.incidents[other].key == x.key ::
               s.incidents[other].status.Resolved?
    ensures var none := Faults(false, false);
            var s1 := Decide(s, q, a, o, none);
            var s2 := Complete(s1.site, o, c, viaService, none);
            var s3 := Ingest(s2.site, threshold, x, id, none);
            && s1.code == 201 && s2.code == 200 && s3.code == 201
            && s2.site.incidents[q.incident].status.Resolved?
            && id in s3.site.incidents && AutomaticFrom(s3.site.incidents[id], id, x)
            && OnePerSensor(s3.site)
  {
    hide Decide, Complete, Ingest, Sound, LevelOf;
    var none := Faults(false, false);
    var s1 := Decide(s, q, a, o, none);
    var s2 := Complete(s1.site, o, c, viaService, none);
    var s3 := Ingest(s2.site, threshold, x, id, none);
    DecisionOpensOrderIff(s, q, a, o, none);
    CompletionResolvesTheIncident(s1.site, o, c, viaService, none);
    SampleIsTaken(s2.site, threshold, x, id, none);
    assert !Unresolved(s2.site.incidents, x.key);
    StaysSound(s, threshold, q, a, o, c, viaService, x, id, none);
  }

  lemma StaysSound(
    s: Site, threshold: int, q: ApprovalRequest, a: string, o: string, c: CompletionRequest, viaService: bool,
    x: Sample, id: string, faults: Faults)
    requires Sound(s, threshold) && a !in s.approvals && o !in s.orders && o !in s.origin
    requires id !in Complete(Decide(s, q, a, o, faults).site, o, c, viaService, faults).site.incidents
    ensures var s2 := Complete(Decide(s, q, a, o, faults).site, o, c, viaService, faults).site;
            OnePerSensor(Ingest(s2, threshold, x, id, faults).site)
  {
    hide Decide, Complete, Ingest;
    StepIsSound(s, threshold, Approval(q, a, o, faults));
    var s1 := Decide(s, q, a, o, faults).site;
    StepIsSound(s1, threshold, WorkDone(o, c, viaService, faults));
    var s2 := Complete(s1, o, c, viaService, faults).site;
    StepIsSound(s2, threshold, Telemetry(x, id, faults));
  }
}
