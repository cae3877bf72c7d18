/** The incident and work-order services as their handlers run: fields updated in
    place, each handler proved equal to its step, and to keep what every run keeps. */
module PlantService {
  import D = Detection
  import opened IncidentLifecycle
  import opened Operations
  import opened OperationsInvariants
  import opened OperationsEffects

  /** The invariant survives the action, and nothing moves back. */
  ghost predicate Keeps(s: Site, t: Site, threshold: int, a: Action) {
    Sound(s, threshold) && Possible(s, a) ==> Sound(t, threshold) && IncidentsAdvance(s, t) && OrdersAdvance(s, t)
  }

  lemma ActionKeeps(s: Site, threshold: int, a: Action)
    ensures Keeps(s, Do(s, threshold, a), threshold, a)
  {
    hide Do, Sound, Possible, IncidentsAdvance, OrdersAdvance;
    if Sound(s, threshold) && Possible(s, a) { StepIsSound(s, threshold, a); }
  }

  class Plant {
    const detector: D.AnomalyDetector
    var incidents: map<string, Incident>
    var approvals: map<string, ApprovalRequest>
    var orders: map<string, Order>
    ghost var origin: map<string, string>
    ghost var samples: seq<D.Signal>

    ghost function View(): Site
      reads this, detector
    {
      Site(detector.streaks, incidents, approvals, orders, origin, samples)
    }

    /** A new process over existing tables: the detector starts empty. */
    constructor (threshold: int, incidents: map<string, Incident>, approvals: map<string, ApprovalRequest>,
                 orders: map<string, Order>, ghost origin: map<string, string>)
      ensures fresh(detector) && detector.threshold == threshold
      ensures View() == Site(map[], incidents, approvals, orders, origin, [])
      ensures OnePerSensor(View()) && FiledById(View()) && OrdersSound(View()) ==> Sound(View(), threshold)
    {
      detector := new D.AnomalyDetector(threshold);
      this.incidents, this.approvals, this.orders := incidents, approvals, orders;
      this.origin, this.samples := origin, [];
    }

    method IngestTelemetry(x: Sample, id: string, faults: Faults) returns (code: nat)
      modifies this, detector
      ensures Outcome(View(), code) == Ingest(old(View()), detector.threshold, x, id, faults)
      ensures Keeps(old(View()), View(), detector.threshold, Telemetry(x, id, faults))
      ensures SampleTaken(old(View()), View(), code, detector.threshold, x, id, faults)
    {
      hide Keeps, SampleTaken;
      SampleIsTaken(View(), detector.threshold, x, id, faults);
      ActionKeeps(View(), detector.threshold, Telemetry(x, id, faults));
      if faults.first {
        return 500;
      }
      var level := Classify(x);
      var trigger := detector.Evaluate(D.Signal(x.key, level));
      samples := samples + [D.Signal(x.key, level)];
      code := 201;
      if !trigger.NoTrigger? {
        var duplicateExists := exists id | id in incidents ::
          !incidents[id].status.Resolved? && incidents[id].key == x.key;
        if !duplicateExists {
          var severity := if level.Critical? then CriticalSeverity else HighSeverity;
          incidents := incidents[id := Incident(id, x.key, Detected, severity, Automatic, CodeOf(trigger))];
          if faults.second {
            return 500;
          }
        }
      }
    }

    method SimulateIncident(x: Sample, errorCode: string, id: string, faults: Faults) returns (code: nat)
      modifies this
      ensures Outcome(View(), code) == Simulate(old(View()), x, errorCode, id, faults)
      ensures Keeps(old(View()), View(), detector.threshold, Simulation(x, errorCode, id, faults))
      ensures IncidentSimulated(old(View()), View(), code, x, errorCode, id, faults)
    {
      hide Keeps, IncidentSimulated;
      SimulationIsStored(View(), x, errorCode, id, faults);
      ActionKeeps(View(), detector.threshold, Simulation(x, errorCode, id, faults));
      var severity := if x.measured >= x.threshold * 1.2 then CriticalSeverity else HighSeverity;
      incidents := incidents[id := Incident(id, x.key, Detected, severity, Manual, errorCode)];
      code := if faults.first then 500 else 201;
    }

    method PatchStatus(id: string, target: Status, faults: Faults) returns (code: nat)
      modifies this
      ensures Outcome(View(), code) == UpdateStatus(old(View()), id, target, faults)
      ensures Keeps(old(View()), View(), detector.threshold, StatusUpdate(id, target, faults))
      ensures StatusPatched(old(View()), View(), code, id, target, faults)
    {
      hide Keeps, StatusPatched;
      PatchReachesTheIncident(View(), id, target, faults);
      ActionKeeps(View(), detector.threshold, StatusUpdate(id, target, faults));
      if id !in incidents {
        return 404;
      }
      var incident := incidents[id];
      if target !in Allowed(incident.status) {
        return 409;
      }
      incidents := incidents[id := incident.(status := target)];
      code := if faults.first then 500 else 200;
    }

    method DecideActionPlan(q: ApprovalRequest, approvalId: string, orderId: string, faults: Faults)
      returns (code: nat)
      modifies this
      ensures Outcome(View(), code) == Decide(old(View()), q, approvalId, orderId, faults)
      ensures Keeps(old(View()), View(), detector.threshold, Approval(q, approvalId, orderId, faults))
      ensures DecisionTaken(old(View()), View(), code, q, approvalId, orderId, faults)
    {
      hide Keeps, DecisionTaken, DefaultChecklist;
      DecisionOpensOrderIff(View(), q, approvalId, orderId, faults);
      ActionKeeps(View(), detector.threshold, Approval(q, approvalId, orderId, faults));
      if |q.comment| < 3 || |q.comment| > 2000 {
        return 422;
      }
      approvals := approvals[approvalId := q];
      if faults.first {
        return 500;
      }
      if q.decision.Reject? {
        return 201;
      }
      if q.decision.ApproveWithChanges? && q.checklist == [] {
        return 422;
      }
      var checklist := if q.checklist != [] then q.checklist else DefaultChecklist();
      orders := orders[orderId := Order(q.incident, q.analysis, Open, checklist, [], [], "", "", false)];
      origin := origin[orderId := approvalId];
      code := if faults.second then 500 else 201;
    }

    method CompleteWorkOrder(orderId: string, c: CompletionRequest, viaService: bool, faults: Faults)
      returns (code: nat)
      modifies this
      ensures Outcome(View(), code) == Complete(old(View()), orderId, c, viaService, faults)
      ensures Keeps(old(View()), View(), detector.threshold, WorkDone(orderId, c, viaService, faults))
      ensures WorkCompleted(old(View()), View(), code, orderId, c, viaService, faults)
    {
      hide Keeps, WorkCompleted;
      CompletionResolvesTheIncident(View(), orderId, c, viaService, faults);
      ActionKeeps(View(), detector.threshold, WorkDone(orderId, c, viaService, faults));
      if !Acceptable(c) {
        return 422;
      }
      if orderId !in orders {
        return 404;
      }
      if !c.recoveryConfirmed {
        return 409;
      }
      var order := orders[orderId];
      if !Covers(c.completedItems, order.checklist) {
        return 409;
      }
      order := order.(status := Completed, completedItems := c.completedItems, photoKeys := c.photoKeys);
      order := order.(fieldNote := c.fieldNote, actualCause := c.actualCause, recoveryConfirmed := true);
      orders := orders[orderId := order];
      if viaService {
        code := PatchStatus(order.incident, Resolved, faults);
        if code != 200 {
          return 500;
        }
      } else if order.incident in incidents {
        incidents := incidents[order.incident := incidents[order.incident].(status := Resolved)];
      }
      code := if faults.second then 500 else 200;
    }
  }
}
