/** Telemetry, automatic and simulated incidents, status updates, approvals and
    work orders as one sequential state machine
    (services/incident/app/main.py, services/work_order/app/main.py). */
module Operations {
  import D = Detection
  import opened Repository
  import opened IncidentLifecycle

  datatype Source = Manual | Automatic
  datatype Severity = CriticalSeverity | HighSeverity
  datatype Incident = Incident(
    id: string, key: D.SensorKey, status: Status, severity: Severity, source: Source, errorCode: string)

  datatype Decision = Approve | ApproveWithChanges | Reject
  datatype ApprovalRequest = ApprovalRequest(
    analysis: string, incident: string, decision: Decision, comment: string, checklist: seq<string>)

  datatype OrderStatus = Open | Completed
  datatype Order = Order(
    incident: string, analysis: string, status: OrderStatus, checklist: seq<string>,
    completedItems: seq<string>, photoKeys: seq<string>, fieldNote: string, actualCause: string,
    recoveryConfirmed: bool)

  datatype CompletionRequest = CompletionRequest(
    completedItems: seq<string>, photoKeys: seq<string>, fieldNote: string, actualCause: string,
    recoveryConfirmed: bool)

  /** The stores of both services and the detector's counters. `origin` and
      `samples` are history: the approval each order came from, and every sample
      the detector evaluated since the process started. */
  datatype Site = Site(
    streaks: D.Streaks,
    incidents: map<string, Incident>,
    approvals: map<string, ApprovalRequest>,
    orders: map<string, Order>,
    origin: map<string, string>,
    samples: seq<D.Signal>)

  /** HTTP outcome: the state after the request and its status code. */
  datatype Outcome = Outcome(site: Site, code: nat)

  /** Which of a handler's publications raise, in the order it makes them. What was
      stored before stays stored, and the answer is 500. */
  datatype Faults = Faults(first: bool, second: bool)

  function Answer(code: nat, raises: bool): nat {
    if raises then 500 else code
  }

  // ---------------------------------------------------------------------- incidents

  datatype Sample = Sample(key: D.SensorKey, measured: real, threshold: real)

  function Classify(x: Sample): D.Level {
    var ratio := if x.threshold != 0.0 then x.measured / x.threshold else 0.0;
    if ratio >= 1.2 then D.Critical else if ratio >= 1.0 then D.Warning else D.Normal
  }

  /** What a reading means: how far it is beyond its limit, on the limit's side of
      zero, without a quotient. A limit of zero is never exceeded. */
  function LevelOf(x: Sample): D.Level {
    if x.threshold > 0.0 then
      if 5.0 * x.measured >= 6.0 * x.threshold then D.Critical
      else if x.measured >= x.threshold then D.Warning
      else D.Normal
    else if x.threshold < 0.0 then
      if 5.0 * x.measured <= 6.0 * x.threshold then D.Critical
      else if x.measured <= x.threshold then D.Warning
      else D.Normal
    else D.Normal
  }

  lemma QuotientAtLeast(m: real, t: real, c: real)
    requires t != 0.0
    ensures t > 0.0 ==> (m / t >= c <==> m >= c * t)
    ensures t < 0.0 ==> (m / t >= c <==> m <= c * t)
  {
    var q := m / t;
    assert q * t == m;
    if q >= c { TimesKeepsOrder(c, q, t); } else { TimesKeepsOrder(q, c, t); }
  }

  lemma TimesKeepsOrder(a: real, b: real, t: real)
    ensures a <= b && t > 0.0 ==> a * t <= b * t
    ensures a <= b && t < 0.0 ==> a * t >= b * t
    ensures a < b && t > 0.0 ==> a * t < b * t
    ensures a < b && t < 0.0 ==> a * t > b * t
  {
    assert (b - a) * t == b * t - a * t;
  }

  /** The quotient the service computes classifies readings as they deserve. */
  lemma ClassifyReads(x: Sample)
    ensures Classify(x) == LevelOf(x)
  {
    if x.threshold != 0.0 {
      QuotientAtLeast(x.measured, x.threshold, 1.2);
      QuotientAtLeast(x.measured, x.threshold, 1.0);
    }
  }

  predicate Unresolved(incidents: map<string, Incident>, key: D.SensorKey) {
    exists id | id in incidents :: !incidents[id].status.Resolved? && incidents[id].key == key
  }

  function CodeOf(t: D.Trigger): string {
    match t
    case AutoCritical => "AUTO-CRITICAL"
    case AutoWarningStreak => "AUTO-WARNING-STREAK"
    case NoTrigger => ""
  }

  /** `ingest_telemetry`: if publishing the sample raises, detection never runs. */
  function Ingest(s: Site, threshold: int, x: Sample, id: string, faults: Faults): (r: Outcome)
    ensures r.site == s.(streaks := r.site.streaks, samples := r.site.samples, incidents := r.site.incidents)
  {
    if faults.first then Outcome(s, 500)
    else
      var signal := D.Signal(x.key, Classify(x));
      var v := D.Judge(s.streaks, threshold, signal);
      var s1 := s.(streaks := v.streaks, samples := s.samples + [signal]);
      if v.trigger.NoTrigger? || Unresolved(s.incidents, x.key) then Outcome(s1, 201)
      else
        var severity := if signal.level.Critical? then CriticalSeverity else HighSeverity;
        var incident := Incident(id, x.key, Detected, severity, Automatic, CodeOf(v.trigger));
        Outcome(s1.(incidents := s.incidents[id := incident]), Answer(201, faults.second))
  }

  /** `simulate_incident` does not look for duplicates. */
  function Simulate(s: Site, x: Sample, errorCode: string, id: string, faults: Faults): Outcome {
    var severity := if x.measured >= x.threshold * 1.2 then CriticalSeverity else HighSeverity;
    var incident := Incident(id, x.key, Detected, severity, Manual, errorCode);
    Outcome(s.(incidents := s.incidents[id := incident]), Answer(201, faults.first))
  }

  /** `update_incident_status` */
  function UpdateStatus(s: Site, id: string, target: Status, faults: Faults): (r: Outcome)
    ensures r.site == s.(incidents := r.site.incidents)
  {
    if id !in s.incidents then Outcome(s, 404)
    else if target !in Allowed(s.incidents[id].status) then Outcome(s, 409)
    else
      var updated := s.incidents[id].(status := target);
      Outcome(s.(incidents := s.incidents[id := updated]), Answer(200, faults.first))
  }

  // -------------------------------------------------------------------- work orders

  function DefaultChecklist(): (items: seq<string>)
    ensures |items| == 4
  {
    ["작업 전 설비 에너지 차단 상태 확인", "권장 점검 항목 수행", "사진과 작업 메모 등록", "시험 가동 후 정상 복구 확인"]
  }

  /** `decide_action_plan`: the decision is stored before it is examined. */
  function Decide(s: Site, q: ApprovalRequest, approvalId: string, orderId: string, faults: Faults): (r: Outcome)
    ensures r.site == s.(approvals := r.site.approvals, orders := r.site.orders, origin := r.site.origin)
  {
    if !(3 <= |q.comment| <= 2000) then Outcome(s, 422)
    else
      var s1 := s.(approvals := s.approvals[approvalId := q]);
      if faults.first then Outcome(s1, 500)
      else if q.decision.Reject? then Outcome(s1, 201)
      else if q.decision.ApproveWithChanges? && q.checklist == [] then Outcome(s1, 422)
      else
        var checklist := if q.checklist != [] then q.checklist else DefaultChecklist();
        var order := Order(q.incident, q.analysis, Open, checklist, [], [], "", "", false);
        Outcome(s1.(orders := s.orders[orderId := order], origin := s.origin[orderId := approvalId]),
                Answer(201, faults.second))
  }

  predicate Acceptable(c: CompletionRequest) {
    |c.photoKeys| >= 1 && 3 <= |c.fieldNote| <= 4000 && 3 <= |c.actualCause| <= 2000
  }

  predicate Covers(done: seq<string>, checklist: seq<string>) {
    forall item | item in checklist :: item in done
  }

  /** The order with the evidence of its completion. */
  function Finished(o: Order, c: CompletionRequest): Order {
    o.(status := Completed, completedItems := c.completedItems, photoKeys := c.photoKeys,
       fieldNote := c.fieldNote, actualCause := c.actualCause, recoveryConfirmed := true)
  }

  /** `complete_work_order`: the order is stored first; then the incident is
      resolved by a PATCH to the incident service, which may refuse or fail to
      publish, or directly. */
  function Complete(s: Site, orderId: string, c: CompletionRequest, viaService: bool, faults: Faults): (r: Outcome)
    ensures r.site == s.(orders := r.site.orders, incidents := r.site.incidents)
  {
    if !Acceptable(c) then Outcome(s, 422)
    else if orderId !in s.orders then Outcome(s, 404)
    else if !c.recoveryConfirmed then Outcome(s, 409)
    else
      var o := s.orders[orderId];
      if !Covers(c.completedItems, o.checklist) then Outcome(s, 409)
      else
        var s1 := s.(orders := s.orders[orderId := Finished(o, c)]);
        if viaService then
          var r := UpdateStatus(s1, o.incident, Resolved, faults);
          Outcome(r.site, Answer(200, r.code != 200 || faults.second))
        else if o.incident in s1.incidents then
          var resolved := s1.incidents[o.incident].(status := Resolved);
          Outcome(s1.(incidents := s1.incidents[o.incident := resolved]), Answer(200, faults.second))
        else Outcome(s1, Answer(200, faults.second))
  }
}
