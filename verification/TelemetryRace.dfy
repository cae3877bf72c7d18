/** Overlapping requests on the incidents (services/incident/app/main.py): a
    telemetry handler evaluates its sample, lists the incidents and stores a new one
    in separate steps, a PATCH checks the status and writes it in separate steps,
    and anything may happen in between. */
module TelemetryRace {
  import D = Detection
  import opened IncidentLifecycle
  import opened Operations
  import opened OperationsInvariants

  /** A telemetry request on its way: its sample triggered, or it has also found no
      duplicate in the listing it was given. */
  datatype Handler =
    | Free
    | Triggered(key: D.SensorKey, severity: Severity, code: string)
    | Cleared(key: D.SensorKey, severity: Severity, code: string, listing: map<string, Incident>)

  /** A PATCH on its way: the incident as it read it, and the status it will write. */
  datatype Patcher = Resting | Vetted(incident: Incident, target: Status)

  datatype Floor = Floor(site: Site, handlers: seq<Handler>, patchers: seq<Patcher>)

  /** Check and Overwrite are the two halves of a PATCH, also of the one a completion
      sends; a write that its own `put` refuses is a GiveUp. Drop: a telemetry
      request dies. Meanwhile: any other request as a whole. A completion without
      the service may be taken as a whole, as it only ever writes `resolved`. */
  datatype Event =
    | Evaluate(h: nat, x: Sample)
    | List(h: nat)
    | Store(h: nat, id: string)
    | Drop(h: nat)
    | Check(p: nat, id: string, target: Status)
    | Overwrite(p: nat)
    | GiveUp(p: nat)
    | Meanwhile(a: Action)

  ghost predicate Able(s: Floor, e: Event) {
    match e
    case Evaluate(h, _) => h < |s.handlers| && s.handlers[h].Free?
    case List(h) => h < |s.handlers| && s.handlers[h].Triggered?
    case Store(h, id) => h < |s.handlers| && s.handlers[h].Cleared? && id !in s.site.incidents
    case Drop(h) => h < |s.handlers|
    case Check(p, _, _) => p < |s.patchers| && s.patchers[p].Resting?
    case Overwrite(p) => p < |s.patchers| && s.patchers[p].Vetted?
    case GiveUp(p) => p < |s.patchers|
    case Meanwhile(a) => !a.Telemetry? && Possible(s.site, a)
  }

  function Opened(q: Handler, id: string): Incident
    requires q.Cleared?
  {
    Incident(id, q.key, Detected, q.severity, Automatic, q.code)
  }

  function Rewritten(incidents: map<string, Incident>, u: Patcher): map<string, Incident>
    requires u.Vetted?
  {
    incidents[u.incident.id := u.incident.(status := u.target)]
  }

  ghost function Next(s: Floor, threshold: int, e: Event): Floor
    requires Able(s, e)
  {
    match e
    case Evaluate(h, x) =>
      var signal := D.Signal(x.key, Classify(x));
      var v := D.Judge(s.site.streaks, threshold, signal);
      var severity := if signal.level.Critical? then CriticalSeverity else HighSeverity;
      s.(site := s.site.(streaks := v.streaks, samples := s.site.samples + [signal]),
         handlers := if v.trigger.NoTrigger? then s.handlers
                     else s.handlers[h := Triggered(x.key, severity, CodeOf(v.trigger))])
    case List(h) =>
      var q := s.handlers[h];
      s.(handlers := s.handlers[h := if Unresolved(s.site.incidents, q.key) then Free
                                     else Cleared(q.key, q.severity, q.code, s.site.incidents)])
    case Store(h, id) =>
      s.(site := s.site.(incidents := s.site.incidents[id := Opened(s.handlers[h], id)]),
         handlers := s.handlers[h := Free])
    case Drop(h) => s.(handlers := s.handlers[h := Free])
    case Check(p, id, target) =>
      if id in s.site.incidents && target in Allowed(s.site.incidents[id].status)
      then s.(patchers := s.patchers[p := Vetted(s.site.incidents[id], target)])
      else s
    case Overwrite(p) =>
      s.(site := s.site.(incidents := Rewritten(s.site.incidents, s.patchers[p])), patchers := s.patchers[p := Resting])
    case GiveUp(p) => s.(patchers := s.patchers[p := Resting])
    case Meanwhile(a) => s.(site := Do(s.site, threshold, a))
  }

  ghost predicate Run(s: Floor, threshold: int, events: seq<Event>, t: Floor)
    decreases |events|
  {
    if events == [] then s == t else Able(s, events[0]) && Run(Next(s, threshold, events[0]), threshold, events[1..], t)
  }

  /** Without anything in between, the steps are the sequential handlers. */
  lemma UninterruptedIsSequential(
    s: Floor, threshold: int, h: nat, x: Sample, id: string, p: nat, target: Status, f: Faults)
    requires h < |s.handlers| && s.handlers[h].Free? && id !in s.site.incidents && !f.first
    requires p < |s.patchers| && s.patchers[p].Resting? && FiledById(s.site)
    ensures var s1 := Next(s, threshold, Evaluate(h, x));
            var s2 := if s1.handlers[h].Triggered? then Next(s1, threshold, List(h)) else s1;
            var s3 := if s2.handlers[h].Cleared? then Next(s2, threshold, Store(h, id)) else s2;
            s3.site == Ingest(s.site, threshold, x, id, f).site && s3.handlers == s.handlers
    ensures forall other ::
              var s1 := Next(s, threshold, Check(p, other, target));
              var s2 := if s1.patchers[p].Vetted? then Next(s1, threshold, Overwrite(p)) else s1;
              s2.site == UpdateStatus(s.site, other, target, f).site
  {
    hide D.Judge, Classify, Unresolved, Do, Allowed;
  }

  // --------------------------------------------------------------------- invariants

  /** The same incident, whatever its status. */
  ghost predicate Same(before: Incident, after: Incident) {
    after == before.(status := after.status)
  }

  ghost predicate AllStay(before: map<string, Incident>, after: map<string, Incident>) {
    forall id | id in before :: id in after && Same(before[id], after[id])
  }

  /** A cleared handler saw no unresolved incident on its key. */
  ghost predicate Informed(s: Floor, q: Handler) {
    q.Cleared? ==> !Unresolved(q.listing, q.key) && AllStay(q.listing, s.site.incidents)
  }

  /** A vetted PATCH holds an incident that still exists, and may move it on. */
  ghost predicate Justified(s: Floor, u: Patcher) {
    u.Vetted? ==>
      && u.incident.id in s.site.incidents && Same(u.incident, s.site.incidents[u.incident.id])
      && u.target in Allowed(u.incident.status)
  }

  ghost predicate Tracked(s: Floor) {
    && FiledById(s.site)
    && (forall h | 0 <= h < |s.handlers| :: Informed(s, s.handlers[h]))
    && (forall p | 0 <= p < |s.patchers| :: Justified(s, s.patchers[p]))
  }

  lemma MeanwhileStays(s: Site, threshold: int, a: Action)
    requires FiledById(s) && Possible(s, a)
    ensures FiledById(Do(s, threshold, a)) && AllStay(s.incidents, Do(s, threshold, a).incidents)
  {
    hide Do;
    var i := StepChange(s, threshold, a);
  }

  lemma StayTransitively(a: map<string, Incident>, b: map<string, Incident>, c: map<string, Incident>)
    requires AllStay(a, b) && AllStay(b, c)
    ensures AllStay(a, c)
  {
    forall id | id in a ensures id in c && Same(a[id], c[id]) {
      assert Same(a[id], b[id]) && Same(b[id], c[id]);
    }
  }

  lemma EventStays(s: Floor, threshold: int, e: Event)
    requires Tracked(s) && Able(s, e)
    ensures var t := Next(s, threshold, e);
            FiledById(t.site) && AllStay(s.site.incidents, t.site.incidents)
  {
    hide Do, D.Judge, Classify, Unresolved, Allowed;
    if e.Meanwhile? {
      MeanwhileStays(s.site, threshold, e.a);
    } else if e.Overwrite? {
      assert Justified(s, s.patchers[e.p]);
    }
  }

  lemma EventKeepsInformed(s: Floor, threshold: int, e: Event, h: nat)
    requires Tracked(s) && Able(s, e) && h < |s.handlers|
    ensures var t := Next(s, threshold, e);
            |t.handlers| == |s.handlers| && Informed(t, t.handlers[h])
  {
    hide Do, D.Judge, Classify, Unresolved, Allowed, AllStay, FiledById;
    var t := Next(s, threshold, e);
    var q := t.handlers[h];
    EventStays(s, threshold, e);
    assert Informed(s, s.handlers[h]);
    if q.Cleared? && q == s.handlers[h] {
      StayTransitively(q.listing, s.site.incidents, t.site.incidents);
    }
  }

  lemma EventKeepsJustified(s: Floor, threshold: int, e: Event, p: nat)
    requires Tracked(s) && Able(s, e) && p < |s.patchers|
    ensures var t := Next(s, threshold, e);
            |t.patchers| == |s.patchers| && Justified(t, t.patchers[p])
  {
    hide Do, D.Judge, Classify, Unresolved, Allowed;
    var t := Next(s, threshold, e);
    EventStays(s, threshold, e);
    assert Justified(s, s.patchers[p]);
    var u := t.patchers[p];
    if u.Vetted? && u == s.patchers[p] {
      assert Same(s.site.incidents[u.incident.id], t.site.incidents[u.incident.id]);
    }
  }

  lemma EventKeepsTrack(s: Floor, threshold: int, e: Event)
    requires Tracked(s) && Able(s, e)
    ensures Tracked(Next(s, threshold, e))
  {
    hide Next, Informed, Justified, FiledById, AllStay;
    var t := Next(s, threshold, e);
    EventStays(s, threshold, e);
    forall h | 0 <= h < |s.handlers| ensures |t.handlers| == |s.handlers| && Informed(t, t.handlers[h]) {
      EventKeepsInformed(s, threshold, e, h);
    }
    forall p | 0 <= p < |s.patchers| ensures |t.patchers| == |s.patchers| && Justified(t, t.patchers[p]) {
      EventKeepsJustified(s, threshold, e, p);
    }
    CountsStay(s, threshold, e);
  }

  lemma CountsStay(s: Floor, threshold: int, e: Event)
    requires Able(s, e)
    ensures var t := Next(s, threshold, e);
            |t.handlers| == |s.handlers| && |t.patchers| == |s.patchers|
  {
    hide Do, D.Judge, Classify, Unresolved, Allowed;
  }

  // ------------------------------------------------------- what is one incident too many

  ghost predicate OpenOn(s: Site, id: string, key: D.SensorKey) {
    OpenAutomatic(s, id) && s.incidents[id].key == key
  }

  /** Since the handler's listing, an automatic incident on its key was stored, or one
      that was listed as resolved was reopened, and it is open now. */
  ghost predicate Overtaken(s: Floor, q: Handler) {
    q.Cleared? && exists id :: OpenOn(s.site, id, q.key) && (id !in q.listing || q.listing[id].status.Resolved?)
  }

  /** The PATCH would reopen an automatic incident that was resolved since its check,
      while another one is open on the sensor. */
  ghost predicate Reopens(s: Floor, u: Patcher) {
    && u.Vetted? && !u.target.Resolved? && u.incident.source.Automatic? && u.incident.id in s.site.incidents
    && s.site.incidents[u.incident.id].status.Resolved?
    && exists id :: id != u.incident.id && OpenOn(s.site, id, u.incident.key)
  }

  /** A new incident keeps one open automatic one per sensor if and only if none is
      open on its sensor that its handler did not see, or saw as resolved. */
  lemma PutKeepsOneIff(s: Floor, threshold: int, h: nat, id: string)
    requires Tracked(s) && OnePerSensor(s.site) && Able(s, Store(h, id))
    ensures OnePerSensor(Next(s, threshold, Store(h, id)).site) <==> !Overtaken(s, s.handlers[h])
  {
    var q := s.handlers[h];
    var t := Next(s, threshold, Store(h, id)).site;
    assert Informed(s, q);
    assert OpenAutomatic(t, id);
    if Overtaken(s, q) {
      var other :| OpenOn(s.site, other, q.key) && (other !in q.listing || q.listing[other].status.Resolved?);
      assert OpenAutomatic(t, other) && t.incidents[other].key == t.incidents[id].key && other != id;
    } else {
      forall p | OpenAutomatic(s.site, p) ensures !OpenOn(s.site, p, q.key) {
        assert p in q.listing ==> Same(q.listing[p], s.site.incidents[p]);
        assert p in q.listing ==> q.listing[p].status.Resolved? || q.listing[p].key != q.key;
      }
      OneMore(s.site, t, id);
    }
  }

  /** One more open automatic incident, on a sensor without one. */
  lemma OneMore(s: Site, t: Site, id: string)
    requires OnePerSensor(s) && OpenAutomatic(t, id) && t.incidents == s.incidents[id := t.incidents[id]]
    requires forall p | OpenAutomatic(s, p) && p != id :: s.incidents[p].key != t.incidents[id].key
    ensures OnePerSensor(t)
  {
    forall a, b | OpenAutomatic(t, a) && OpenAutomatic(t, b) && t.incidents[a].key == t.incidents[b].key
      ensures a == b
    {
      assert a != id ==> OpenAutomatic(s, a);
      assert b != id ==> OpenAutomatic(s, b);
    }
  }

  /** Writing one incident without opening it leaves at most one per sensor. */
  lemma NoneMore(s: Site, t: Site, id: string)
    requires OnePerSensor(s) && id in t.incidents && t.incidents == s.incidents[id := t.incidents[id]]
    requires OpenAutomatic(t, id) ==> OpenAutomatic(s, id) && t.incidents[id].key == s.incidents[id].key
    ensures OnePerSensor(t)
  {
    forall a, b | OpenAutomatic(t, a) && OpenAutomatic(t, b) && t.incidents[a].key == t.incidents[b].key
      ensures a == b
    {
      assert OpenAutomatic(s, a) && OpenAutomatic(s, b);
    }
  }

  /** The write of a PATCH keeps one open automatic incident per sensor if and only if
      it does not reopen one beside another. */
  lemma PatchKeepsOneIff(s: Floor, threshold: int, p: nat)
    requires Tracked(s) && OnePerSensor(s.site) && Able(s, Overwrite(p))
    ensures OnePerSensor(Next(s, threshold, Overwrite(p)).site) <==> !Reopens(s, s.patchers[p])
  {
    var u := s.patchers[p];
    var id, t := u.incident.id, Next(s, threshold, Overwrite(p)).site;
    assert Justified(s, u);
    if Reopens(s, u) {
      var other :| other != id && OpenOn(s.site, other, u.incident.key);
      assert OpenAutomatic(t, id) && OpenAutomatic(t, other) && t.incidents[other].key == t.incidents[id].key;
    } else if OpenAutomatic(t, id) && !OpenAutomatic(s.site, id) {
      forall q | OpenAutomatic(s.site, q) && q != id ensures s.site.incidents[q].key != t.incidents[id].key {
        assert !OpenOn(s.site, q, u.incident.key);
      }
      OneMore(s.site, t, id);
    } else {
      NoneMore(s.site, t, id);
    }
  }

  /** The event does not leave two open automatic incidents on one sensor. */
  ghost predicate Harmless(s: Floor, e: Event)
    requires Able(s, e)
  {
    && (e.Store? ==> !Overtaken(s, s.handlers[e.h]))
    && (e.Overwrite? ==> !Reopens(s, s.patchers[e.p]))
  }

  lemma EventKeepsOneIff(s: Floor, threshold: int, e: Event)
    requires Tracked(s) && OnePerSensor(s.site) && Able(s, e)
    ensures OnePerSensor(Next(s, threshold, e).site) <==> Harmless(s, e)
  {
    hide Do, D.Judge, Classify, Unresolved, Overtaken, Reopens, OnePerSensor, Allowed;
    match e
    case Store(h, id) => PutKeepsOneIff(s, threshold, h, id);
    case Overwrite(p) => PatchKeepsOneIff(s, threshold, p);
    case Meanwhile(a) => StepKeepsOnePerSensor(s.site, threshold, a);
    case Evaluate(h, x) => SameIncidents(s.site, Next(s, threshold, e).site);
    case List(h) =>
    case Drop(h) =>
    case Check(p, id, target) =>
    case GiveUp(p) =>
  }

  lemma SameIncidents(s: Site, t: Site)
    requires OnePerSensor(s) && t.incidents == s.incidents
    ensures OnePerSensor(t)
  {
    forall a, b | OpenAutomatic(t, a) && OpenAutomatic(t, b) && t.incidents[a].key == t.incidents[b].key
      ensures a == b
    {
      assert OpenAutomatic(s, a) && OpenAutomatic(s, b);
    }
  }

  /** At every point of the run each sensor has at most one open automatic incident. */
  ghost predicate AlwaysOne(s: Floor, threshold: int, events: seq<Event>)
    decreases |events|
  {
    OnePerSensor(s.site)
    && (events != [] ==> Able(s, events[0]) && AlwaysOne(Next(s, threshold, events[0]), threshold, events[1..]))
  }

  ghost predicate AllHarmless(s: Floor, threshold: int, events: seq<Event>)
    decreases |events|
  {
    events != [] ==>
      && Able(s, events[0]) && Harmless(s, events[0])
      && AllHarmless(Next(s, threshold, events[0]), threshold, events[1..])
  }

  /** For every interleaving of telemetry handlers, PATCHes, simulations, completions
      and restarts: one open automatic incident per sensor throughout if and only if
      no new incident is overtaken and no PATCH reopens one beside another. */
  lemma {:induction false} OneThroughoutIffHarmless(s: Floor, threshold: int, events: seq<Event>, t: Floor)
    requires Tracked(s) && OnePerSensor(s.site) && Run(s, threshold, events, t)
    ensures AlwaysOne(s, threshold, events) <==> AllHarmless(s, threshold, events)
    decreases |events|
  {
    hide Next, OnePerSensor, Harmless, Tracked, Able;
    if events != [] {
      var u := Next(s, threshold, events[0]);
      EventKeepsTrack(s, threshold, events[0]);
      EventKeepsOneIff(s, threshold, events[0]);
      if OnePerSensor(u.site) {
        OneThroughoutIffHarmless(u, threshold, events[1..], t);
      }
    }
  }

  // --------------------------------------------------------------------- losing runs

  lemma Cons(s: Floor, threshold: int, e: Event, rest: seq<Event>, t: Floor) returns (events: seq<Event>)
    requires Able(s, e) && Run(Next(s, threshold, e), threshold, rest, t)
    ensures events == [e] + rest && Run(s, threshold, events, t)
  {
    events := [e] + rest;
    assert events[1..] == rest;
  }

  function EmptyFloor(): Floor {
    Floor(Site(map[], map[], map[], map[], map[], []), [Free, Free], [Resting])
  }

  /** Two handlers that have both found no duplicate. */
  lemma BothStore(s: Floor, threshold: int, a: string, b: string) returns (events: seq<Event>, t: Floor)
    requires |s.handlers| == 2 && s.handlers[0].Cleared? && s.handlers[1].Cleared? && a != b
    requires s.handlers[0].key == s.handlers[1].key && a !in s.site.incidents && b !in s.site.incidents
    ensures Run(s, threshold, events, t) && !OnePerSensor(t.site)
  {
    var s1 := Next(s, threshold, Store(0, a));
    t := Next(s1, threshold, Store(1, b));
    assert OpenAutomatic(t.site, a) && OpenAutomatic(t.site, b);
    assert Run(t, threshold, [], t);
    events := Cons(s1, threshold, Store(1, b), [], t);
    events := Cons(s, threshold, Store(0, a), events, t);
  }

  /** From an empty plant, two critical samples of one sensor whose handlers both
      list before either stores leave two open automatic incidents. */
  lemma StaleListingOpensTwo(threshold: int, x: Sample, a: string, b: string) returns (events: seq<Event>, t: Floor)
    requires Classify(x).Critical? && a != b
    ensures Run(EmptyFloor(), threshold, events, t) && !OnePerSensor(t.site)
  {
    hide Classify;
    var s := EmptyFloor();
    var s1 := Next(s, threshold, Evaluate(0, x));
    var s2 := Next(s1, threshold, Evaluate(1, x));
    var s3 := Next(s2, threshold, List(0));
    var s4 := Next(s3, threshold, List(1));
    events, t := BothStore(s4, threshold, a, b);
    events := Cons(s3, threshold, List(1), events, t);
    events := Cons(s2, threshold, List(0), events, t);
    events := Cons(s1, threshold, Evaluate(1, x), events, t);
    events := Cons(s, threshold, Evaluate(0, x), events, t);
  }

  /** A critical sample of a sensor without unresolved incidents, handled at once. */
  lemma OpenAtOnce(s: Floor, threshold: int, x: Sample, id: string) returns (u: Floor)
    requires |s.handlers| >= 1 && s.handlers[0].Free? && Classify(x).Critical?
    requires !Unresolved(s.site.incidents, x.key) && id !in s.site.incidents
    ensures u.handlers == s.handlers && u.patchers == s.patchers
    ensures u.site.incidents ==
            s.site.incidents[id := Incident(id, x.key, Detected, CriticalSeverity, Automatic, "AUTO-CRITICAL")]
    ensures forall rest, t :: Run(u, threshold, rest, t) ==>
              Run(s, threshold, [Evaluate(0, x), List(0), Store(0, id)] + rest, t)
  {
    hide Classify, Unresolved;
    var s1 := Next(s, threshold, Evaluate(0, x));
    var s2 := Next(s1, threshold, List(0));
    u := Next(s2, threshold, Store(0, id));
    forall rest, t | Run(u, threshold, rest, t)
      ensures Run(s, threshold, [Evaluate(0, x), List(0), Store(0, id)] + rest, t)
    {
      var events := Cons(s2, threshold, Store(0, id), rest, t);
      events := Cons(s1, threshold, List(0), events, t);
      events := Cons(s, threshold, Evaluate(0, x), events, t);
      assert events == [Evaluate(0, x), List(0), Store(0, id)] + rest;
    }
  }

  /** An allowed status change, made at once. */
  lemma MoveAtOnce(s: Floor, threshold: int, id: string, target: Status) returns (e: Event, u: Floor)
    requires id in s.site.incidents && target in Allowed(s.site.incidents[id].status)
    ensures Able(s, e) && u == Next(s, threshold, e)
    ensures u == s.(site := s.site.(incidents := s.site.incidents[id := s.site.incidents[id].(status := target)]))
  {
    e := Meanwhile(StatusUpdate(id, target, Faults(false, false)));
    u := Next(s, threshold, e);
  }

  /** An approved incident is taken up and resolved while a PATCH that has checked it
      is still on its way; a second one is opened, and the PATCH reopens the first. */
  lemma ReopenLate(s: Floor, threshold: int, x: Sample, a: string, b: string) returns (events: seq<Event>, t: Floor)
    requires |s.handlers| == 2 && s.handlers[0].Free? && s.patchers == [Resting] && Classify(x).Critical? && a != b
    requires s.site.incidents.Keys == {a} && s.site.incidents[a].id == a && s.site.incidents[a].key == x.key
    requires s.site.incidents[a].status == Approved && s.site.incidents[a].source == Automatic
    ensures Run(s, threshold, events, t) && !OnePerSensor(t.site)
  {
    hide Classify, Do;
    var s1 := Next(s, threshold, Check(0, a, InProgress));
    var e1, s2 := MoveAtOnce(s1, threshold, a, InProgress);
    var e2, s3 := MoveAtOnce(s2, threshold, a, Resolved);
    var s4 := OpenAtOnce(s3, threshold, x, b);
    t := Next(s4, threshold, Overwrite(0));
    assert OpenAutomatic(t.site, a) && OpenAutomatic(t.site, b);
    assert Run(t, threshold, [], t);
    events := Cons(s4, threshold, Overwrite(0), [], t);
    events := [Evaluate(0, x), List(0), Store(0, b)] + events;
    events := Cons(s2, threshold, e2, events, t);
    events := Cons(s1, threshold, e1, events, t);
    events := Cons(s, threshold, Check(0, a, InProgress), events, t);
  }

  /** From an empty plant, and with every handler undisturbed, one late PATCH is enough
      for two open automatic incidents on one sensor. */
  lemma LatePatchReopens(threshold: int, x: Sample, a: string, b: string) returns (events: seq<Event>, t: Floor)
    requires Classify(x).Critical? && a != b
    ensures Run(EmptyFloor(), threshold, events, t) && !OnePerSensor(t.site)
  {
    hide Classify, Do;
    var s1 := OpenAtOnce(EmptyFloor(), threshold, x, a);
    var e1, s2 := MoveAtOnce(s1, threshold, a, Analyzing);
    var e2, s3 := MoveAtOnce(s2, threshold, a, Approved);
    events, t := ReopenLate(s3, threshold, x, a, b);
    events := Cons(s2, threshold, e2, events, t);
    events := Cons(s1, threshold, e1, events, t);
    events := [Evaluate(0, x), List(0), Store(0, a)] + events;
  }
}
