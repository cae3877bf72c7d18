/** Which logs the worker can consume without loss when the environment does not
    fail it, exactly; and what one failure costs. */
module KafkaPoison {
  import opened DeadLetterIds
  import opened RemoteEffects
  import opened EventLog
  import opened KafkaSafety
  import opened KafkaFilings
  import opened KafkaLoss
  import opened KafkaPolling

  ghost predicate EachOutcome(ds: seq<Delivery>, p: Outcome -> bool) {
    forall k, j | InBatch(ds, k, j) :: p(ds[k].outcomes[j])
  }

  /** Crashes, failing lookups, refused event writes and refused commits are all
      allowed; the dead-letter path and the seek are answered, and what arrives
      has a dead letter that can be filed. */
  ghost predicate Benign(step: Step) {
    match step
    case Poll(ds, _) => EachOutcome(ds, o => Reliable(o))
    case Crash(_) => true
    case Append(_, v) => v.letter.Fileable?
  }

  /** Only crashes and refused commits are allowed, and arrivals that can be stored
      or filed. */
  ghost predicate Faultless(step: Step) {
    match step
    case Poll(ds, _) => EachOutcome(ds, o => Perfect(o))
    case Crash(_) => true
    case Append(_, v) => !Hopeless(v)
  }

  ghost predicate AllBenign(steps: seq<Step>) {
    forall k | 0 <= k < |steps| :: Benign(steps[k])
  }

  ghost predicate AllFaultless(steps: seq<Step>) {
    forall k | 0 <= k < |steps| :: Faultless(steps[k])
  }

  /** Every record still to be consumed has a dead letter that can be filed. */
  ghost predicate AllFileable(s: World) {
    forall i, o | 0 <= i < |s.parts| && s.parts[i].committed <= o < |s.parts[i].log| ::
      s.parts[i].log[o].letter.Fileable?
  }

  /** The first record stores the event that the second one carries. */
  predicate Rescues(u: Value, v: Value) {
    u.storable && u.envelope.Identified? && u.envelope == v.envelope
  }

  /** A record still to be consumed comes before this one and stores its event. */
  ghost predicate Rescued(s: World, i: nat, o: nat)
    requires i < |s.parts| && o < |s.parts[i].log|
  {
    exists q :: s.parts[i].committed <= q < o && Rescues(s.parts[i].log[q], s.parts[i].log[o])
  }

  /** Every record still to be consumed can be stored or filed, or its event is stored
      already, or a record before it in the partition will have stored it. */
  ghost predicate NoneHopeless(s: World) {
    forall i, o | 0 <= i < |s.parts| && s.parts[i].committed <= o < |s.parts[i].log| ::
      Hopeless(s.parts[i].log[o]) ==> Stored(s, s.parts[i].log[o]) || Rescued(s, i, o)
  }

  // ------------------------------------------------------------- turns without escape

  ghost predicate RescuedInPass(log: seq<Value>, offset: nat, outcomes: seq<Outcome>, j: nat, k: int) {
    && 0 <= k < j < |outcomes| && offset + |outcomes| <= |log|
    && Perfect(outcomes[k]) && Rescues(log[offset + k], log[offset + j])
  }

  /** The worker's call for the j-th record of a pass will not escape. */
  ghost predicate Copes(s: World, log: seq<Value>, offset: nat, outcomes: seq<Outcome>, j: nat)
    requires j < |outcomes| && offset + |outcomes| <= |log|
  {
    var v := log[offset + j];
    && Reliable(outcomes[j])
    && (|| v.letter.Fileable?
        || (Perfect(outcomes[j]) && (Processable(v) || Stored(s, v)))
        || (Perfect(outcomes[j]) && exists k :: RescuedInPass(log, offset, outcomes, j, k)))
  }

  lemma PerfectStores(s: World, m: nat, r: RecordKey, v: Value, out: Outcome)
    requires Perfect(out) && v.storable && v.envelope.Identified?
    ensures Stored(ProcessWithRetry(s, m, r, v, out).world, v)
  {
    hide DeadLetterId;
  }

  lemma CopesNext(s: World, t: World, log: seq<Value>, offset: nat, outcomes: seq<Outcome>, j: nat)
    requires j + 1 < |outcomes| && offset + |outcomes| <= |log| && Copes(s, log, offset, outcomes, j + 1)
    requires s.store.Keys <= t.store.Keys
    requires Perfect(outcomes[0]) && log[offset].storable && log[offset].envelope.Identified? ==> Stored(t, log[offset])
    ensures Copes(t, log, offset + 1, outcomes[1..], j)
  {
    hide Perfect, Reliable, Processable;
    var n := j + 1;
    var v := log[offset + n];
    assert outcomes[1..][j] == outcomes[n] && log[offset + 1 + j] == v;
    if k :| RescuedInPass(log, offset, outcomes, n, k) {
      if k > 0 {
        assert outcomes[1..][k - 1] == outcomes[k] && log[offset + 1 + (k - 1)] == log[offset + k];
        assert RescuedInPass(log, offset + 1, outcomes[1..], j, k - 1);
      } else {
        assert Stored(t, v);
      }
    }
  }

  lemma {:induction false} PassDoesNotAbort(s: World, m: nat, i: nat, offset: nat, outcomes: seq<Outcome>)
    requires i < |s.parts| && offset + |outcomes| <= |s.parts[i].log|
    requires forall j | 0 <= j < |outcomes| :: Copes(s, s.parts[i].log, offset, outcomes, j)
    ensures !DeliverFrom(s, m, i, offset, outcomes).end.Aborted?
    decreases |outcomes|
  {
    hide ProcessWithRetry, Processable, Perfect, Copes;
    if outcomes != [] {
      var r, v := s.Key(i, offset), s.parts[i].log[offset];
      var p := ProcessWithRetry(s, m, r, v, outcomes[0]);
      assert Copes(s, s.parts[i].log, offset, outcomes, 0);
      HeadDoesNotEscape(s, m, r, s.parts[i].log, offset, outcomes);
      if p.verdict.Settled? {
        SettledIsHandled(s, m, r, v, outcomes[0]);
        if Perfect(outcomes[0]) && v.storable && v.envelope.Identified? { PerfectStores(s, m, r, v, outcomes[0]); }
        var next, rest := offset + 1, outcomes[1..];
        forall j | 0 <= j < |rest| ensures Copes(p.world, p.world.parts[i].log, next, rest, j) {
          assert Copes(s, s.parts[i].log, offset, outcomes, j + 1);
          CopesNext(s, p.world, s.parts[i].log, offset, outcomes, j);
        }
        PassDoesNotAbort(p.world, m, i, next, rest);
      }
    }
  }

  lemma HeadDoesNotEscape(s: World, m: nat, r: RecordKey, log: seq<Value>, offset: nat, outcomes: seq<Outcome>)
    requires outcomes != [] && offset + |outcomes| <= |log| && Copes(s, log, offset, outcomes, 0)
    ensures !ProcessWithRetry(s, m, r, log[offset], outcomes[0]).verdict.Escaped? && !outcomes[0].seekFails
  {
    hide ProcessWithRetry, Processable;
    ReliableVerdict(s, m, r, log[offset], outcomes[0]);
  }

  ghost predicate BatchCopes(s: World, ds: seq<Delivery>) {
    InRange(s, ds) &&
    forall k, j | InBatch(ds, k, j) :: Copes(s, s.parts[ds[k].index].log, ds[k].offset, ds[k].outcomes, j)
  }

  lemma CopesStays(s: World, t: World, log: seq<Value>, log': seq<Value>, offset: nat, outcomes: seq<Outcome>, j: nat)
    requires j < |outcomes| && offset + |outcomes| <= |log| && log <= log' && Copes(s, log, offset, outcomes, j)
    requires s.store.Keys <= t.store.Keys
    ensures Copes(t, log', offset, outcomes, j)
  {
    hide Perfect, Reliable, Processable;
    if k :| RescuedInPass(log, offset, outcomes, j, k) {
      assert RescuedInPass(log', offset, outcomes, j, k);
    }
  }

  lemma BatchStillCopes(s: World, t: World, ds: seq<Delivery>, rest: seq<Delivery>, n: nat)
    requires BatchCopes(s, ds) && n <= |ds| && rest == ds[n..] && SameShape(s, t) && s.store.Keys <= t.store.Keys
    ensures BatchCopes(t, rest)
  {
    hide Copes;
    forall k, j | InBatch(rest, k, j)
      ensures Copes(t, t.parts[rest[k].index].log, rest[k].offset, rest[k].outcomes, j)
    {
      var d := ds[n + k];
      assert rest[k] == d && InBatch(ds, n + k, j);
      CopesStays(s, t, s.parts[d.index].log, t.parts[d.index].log, d.offset, d.outcomes, j);
    }
  }

  lemma {:induction false} DrainDoesNotRaise(s: World, m: nat, ds: seq<Delivery>, any: bool, failed: bool)
    requires BatchCopes(s, ds)
    ensures !DrainBatches(s, m, ds, any, failed).end.Raises?
    decreases |ds|
  {
    hide DeliverFrom, Copes;
    if ds != [] {
      var d := ds[0];
      assert forall j | 0 <= j < |d.outcomes| :: InBatch(ds, 0, j);
      PassDoesNotAbort(s, m, d.index, d.offset, d.outcomes);
      PassGrows(s, m, d.index, d.offset, d.outcomes);
      var p := DeliverFrom(s, m, d.index, d.offset, d.outcomes);
      BatchStillCopes(s, p.world, ds, ds[1..], 1);
      DrainDoesNotRaise(p.world, m, ds[1..], AnyAfter(any, d, p), failed || p.end.Rewound?);
    }
  }

  lemma TurnDoesNotRaise(s: World, m: nat, ds: seq<Delivery>)
    requires BatchCopes(s, ds)
    ensures !Iterate(s, m, ds).end.Raises?
  {
    hide DrainBatches, Copes;
    assert ds[0..] == ds;
    BatchStillCopes(s, Advance(s, ds), ds, ds, 0);
    DrainDoesNotRaise(Advance(s, ds), m, ds, false, false);
  }

  lemma BenignStep(s: World, m: nat, step: Step)
    requires WellFormed(s) && AllFileable(s) && Enabled(s, step) && Benign(step)
    ensures !Escapes(s, m, step) && AllFileable(Apply(s, m, step))
  {
    hide Iterate, Backed;
    if step.Poll? {
      assert BatchCopes(s, step.ds);
      TurnDoesNotRaise(s, m, step.ds);
    }
    if !step.Append? { TurnShape(s, m, step.ds); }
  }

  /** The dead-letter path answered, only records whose own dead letter cannot be
      filed can make a turn escape. */
  lemma {:induction false} FileableRunsDoNotEscape(s: World, m: nat, steps: seq<Step>, t: World)
    requires WellFormed(s) && AllFileable(s) && Run(s, m, steps, t) && AllBenign(steps)
    ensures NoEscape(s, m, steps)
    decreases |steps|
  {
    hide Apply, Benign, Enabled, WellFormed, AllFileable;
    if steps != [] {
      BenignStep(s, m, steps[0]);
      StepShape(s, m, steps[0]);
      assert forall k | 0 <= k < |steps[1..]| :: steps[1..][k] == steps[k + 1];
      FileableRunsDoNotEscape(Apply(s, m, steps[0]), m, steps[1..], t);
    }
  }

  // ---------------------------------------------- what faultless turns store on the way

  /** Every storable event between two offsets is in the store. */
  ghost predicate StoredBetween(s: World, i: nat, lo: nat, hi: nat)
    requires i < |s.parts|
  {
    && hi <= |s.parts[i].log|
    && (forall o | lo <= o < hi && Processable(s.parts[i].log[o]) && s.parts[i].log[o].envelope.Identified? ::
          Stored(s, s.parts[i].log[o]))
  }

  lemma StoredBetweenStays(s: World, t: World, i: nat, lo: nat, hi: nat)
    requires SameShape(s, t) && s.store.Keys <= t.store.Keys && i < |s.parts| && StoredBetween(s, i, lo, hi)
    ensures StoredBetween(t, i, lo, hi)
  {
  }

  lemma {:induction false} PassStores(s: World, m: nat, i: nat, lo: nat, offset: nat, outcomes: seq<Outcome>)
    requires i < |s.parts| && offset + |outcomes| <= |s.parts[i].log| && StoredBetween(s, i, lo, offset)
    requires forall j | 0 <= j < |outcomes| :: Perfect(outcomes[j])
    ensures var p := DeliverFrom(s, m, i, offset, outcomes);
            !p.end.Aborted? ==>
              StoredBetween(p.world, i, lo, if p.end.Drained? then offset + |outcomes| else p.world.parts[i].position)
    decreases |outcomes|
  {
    hide ProcessWithRetry, Perfect, StoredBetween, Grows;
    if outcomes != [] {
      var r, v := s.Key(i, offset), s.parts[i].log[offset];
      var p := ProcessWithRetry(s, m, r, v, outcomes[0]);
      CallKeepsStored(s, m, i, lo, offset, outcomes[0]);
      if p.verdict.Settled? {
        PassStores(p.world, m, i, lo, offset + 1, outcomes[1..]);
      } else {
        StoredBetweenStays(p.world, DeliverFrom(s, m, i, offset, outcomes).world, i, lo, offset);
      }
    }
  }

  lemma CallKeepsStored(s: World, m: nat, i: nat, lo: nat, offset: nat, out: Outcome)
    requires i < |s.parts| && offset < |s.parts[i].log| && StoredBetween(s, i, lo, offset) && Perfect(out)
    ensures var p := ProcessWithRetry(s, m, s.Key(i, offset), s.parts[i].log[offset], out);
            StoredBetween(p.world, i, lo, if p.verdict.Settled? then offset + 1 else offset)
  {
    hide ProcessWithRetry, Perfect;
    var r, v := s.Key(i, offset), s.parts[i].log[offset];
    SettledIsHandled(s, m, r, v, out);
    if v.storable && v.envelope.Identified? { PerfectStores(s, m, r, v, out); }
  }

  ghost predicate StoredUpTo(s: World, lows: seq<nat>, front: seq<nat>) {
    |lows| == |front| == |s.parts| && forall i | 0 <= i < |front| :: StoredBetween(s, i, lows[i], front[i])
  }

  lemma {:induction false} DrainStores(
    s: World, m: nat, ds: seq<Delivery>, any: bool, failed: bool, lows: seq<nat>, front: seq<nat>)
    requires Fronts(s, ds, front) && StoredUpTo(s, lows, front) && EachOutcome(ds, o => Perfect(o))
    ensures var it := DrainBatches(s, m, ds, any, failed);
            !it.end.Raises? ==> StoredUpTo(it.world, lows, Positions(it.world))
    decreases |ds|
  {
    hide DeliverFrom, StoredBetween, Perfect;
    if ds == [] {
      assert front == Positions(s);
    } else {
      var d := ds[0];
      var p := DeliverFrom(s, m, d.index, d.offset, d.outcomes);
      if !p.end.Aborted? {
        PassGrows(s, m, d.index, d.offset, d.outcomes);
        forall j | 0 <= j < |d.outcomes| ensures Perfect(d.outcomes[j]) { assert InBatch(ds, 0, j); }
        PassStores(s, m, d.index, lows[d.index], d.offset, d.outcomes);
        FrontsMove(s, m, ds, front);
        var front' := front[d.index := p.world.parts[d.index].position];
        forall i | 0 <= i < |front'| ensures StoredBetween(p.world, i, lows[i], front'[i]) {
          if i != d.index { StoredBetweenStays(s, p.world, i, lows[i], front[i]); }
        }
        RestIsPerfect(ds);
        DrainStores(p.world, m, ds[1..], AnyAfter(any, d, p), failed || p.end.Rewound?, lows, front');
      }
    }
  }

  lemma RestIsPerfect(ds: seq<Delivery>)
    requires ds != [] && EachOutcome(ds, o => Perfect(o))
    ensures EachOutcome(ds[1..], o => Perfect(o))
  {
    forall k, j | InBatch(ds[1..], k, j) ensures Perfect(ds[1..][k].outcomes[j]) {
      assert ds[1..][k] == ds[k + 1] && InBatch(ds, k + 1, j);
    }
  }

  ghost function Committed(s: World): (c: seq<nat>)
    ensures |c| == |s.parts|
  {
    seq(|s.parts|, i requires 0 <= i < |s.parts| => s.parts[i].committed)
  }

  lemma TurnStores(s: World, m: nat, ds: seq<Delivery>, lows: seq<nat>)
    requires WellFormed(s) && Pollable(s, ds) && StoredUpTo(s, lows, Positions(s)) && EachOutcome(ds, o => Perfect(o))
    requires !Iterate(s, m, ds).end.Raises?
    ensures StoredUpTo(Iterate(s, m, ds).world, lows, Positions(Iterate(s, m, ds).world))
  {
    hide DrainBatches, StoredBetween, Perfect;
    var s1 := Advance(s, ds);
    PollFronts(s, ds);
    forall i | 0 <= i < |s.parts| ensures StoredBetween(s1, i, lows[i], Positions(s)[i]) {
      StoredBetweenStays(s, s1, i, lows[i], Positions(s)[i]);
    }
    DrainStores(s1, m, ds, false, false, lows, Positions(s));
  }

  /** What faultless runs keep: nothing hopeless ahead, and every storable event that
      the consumer has passed since its committed offset is in the store. */
  ghost predicate OnCourse(s: World) {
    NoneHopeless(s) && forall i | 0 <= i < |s.parts| :: StoredBetween(s, i, s.parts[i].committed, s.parts[i].position)
  }

  lemma OnCourseCopes(s: World, ds: seq<Delivery>)
    requires WellFormed(s) && OnCourse(s) && Pollable(s, ds) && EachOutcome(ds, o => Perfect(o))
    ensures BatchCopes(s, ds)
  {
    hide Perfect, Backed, Processable, Hopeless;
    forall k, j | InBatch(ds, k, j) ensures Copes(s, s.parts[ds[k].index].log, ds[k].offset, ds[k].outcomes, j) {
      var d := ds[k];
      RecordCopes(s, d, j);
    }
  }

  lemma RecordCopes(s: World, d: Delivery, j: nat)
    requires WellFormed(s) && OnCourse(s) && d.index < |s.parts| && d.offset == s.parts[d.index].position
    requires d.offset + |d.outcomes| <= |s.parts[d.index].log| && j < |d.outcomes|
    requires forall k | 0 <= k < |d.outcomes| :: Perfect(d.outcomes[k])
    ensures Copes(s, s.parts[d.index].log, d.offset, d.outcomes, j)
  {
    hide Backed;
    var i, o, log := d.index, d.offset + j, s.parts[d.index].log;
    if Hopeless(log[o]) && !Stored(s, log[o]) {
      var q :| s.parts[i].committed <= q < o && Rescues(log[q], log[o]);
      assert StoredBetween(s, i, s.parts[i].committed, s.parts[i].position);
      assert q >= d.offset;
      assert RescuedInPass(log, d.offset, d.outcomes, j, q - d.offset);
    }
  }

  lemma OnCourseAfterTurn(s: World, t: World)
    requires OnCourse(s) && SameShape(s, t) && s.store.Keys <= t.store.Keys
    requires forall i | 0 <= i < |s.parts| ::
               && t.parts[i].log == s.parts[i].log && s.parts[i].committed <= t.parts[i].committed
               && StoredBetween(t, i, s.parts[i].committed, t.parts[i].position)
               && t.parts[i].committed <= t.parts[i].position
    ensures OnCourse(t)
  {
    hide Hopeless, Processable;
    forall i, o | 0 <= i < |t.parts| && t.parts[i].committed <= o < |t.parts[i].log| && Hopeless(t.parts[i].log[o])
      ensures Stored(t, t.parts[i].log[o]) || Rescued(t, i, o)
    {
      if !Stored(s, s.parts[i].log[o]) {
        var q :| s.parts[i].committed <= q < o && Rescues(s.parts[i].log[q], s.parts[i].log[o]);
        RescuerIsProcessable(s.parts[i].log[q], s.parts[i].log[o]);
        if q >= t.parts[i].committed { assert Rescues(t.parts[i].log[q], t.parts[i].log[o]); }
      }
    }
  }

  lemma RescuerIsProcessable(u: Value, v: Value)
    requires Rescues(u, v)
    ensures Processable(u)
  {
  }

  lemma FaultlessStep(s: World, m: nat, step: Step)
    requires WellFormed(s) && OnCourse(s) && Enabled(s, step) && Faultless(step)
    ensures !Escapes(s, m, step) && OnCourse(Apply(s, m, step))
  {
    hide Iterate, Backed, Hopeless, Perfect, OnCourse, StoredBetween;
    var t := Apply(s, m, step);
    match step
    case Poll(ds, commit) =>
      OnCourseCopes(s, ds);
      TurnDoesNotRaise(s, m, ds);
      TurnShape(s, m, ds);
      assert StoredUpTo(s, Committed(s), Positions(s)) by { OnCourseIsStored(s); }
      TurnStores(s, m, ds, Committed(s));
      var u := Iterate(s, m, ds).world;
      forall i | 0 <= i < |s.parts| ensures StoredBetween(t, i, s.parts[i].committed, t.parts[i].position) {
        assert StoredBetween(u, i, Committed(s)[i], Positions(u)[i]);
        StoredBetweenStays(u, t, i, s.parts[i].committed, u.parts[i].position);
      }
      OnCourseAfterTurn(s, t);
    case Crash(ds) =>
      TurnShape(s, m, ds);
      forall i | 0 <= i < |s.parts| ensures StoredBetween(t, i, s.parts[i].committed, t.parts[i].position) {
        NothingBetween(t, i);
      }
      OnCourseAfterTurn(s, t);
    case Append(i, v) =>
      ArrivalStaysOnCourse(s, t, i, v);
  }

  lemma OnCourseIsStored(s: World)
    requires OnCourse(s)
    ensures StoredUpTo(s, Committed(s), Positions(s))
  {
  }

  lemma NothingBetween(s: World, i: nat)
    requires i < |s.parts| && s.parts[i].position == s.parts[i].committed <= |s.parts[i].log|
    ensures StoredBetween(s, i, s.parts[i].committed, s.parts[i].position)
  {
  }

  lemma ArrivalStaysOnCourse(s: World, t: World, i: nat, v: Value)
    requires OnCourse(s) && i < |s.parts| && !Hopeless(v)
    requires t == s.(parts := s.parts[i := s.parts[i].(log := s.parts[i].log + [v])])
    ensures OnCourse(t)
  {
    hide Hopeless, Processable;
    forall j, o | 0 <= j < |t.parts| && t.parts[j].committed <= o < |t.parts[j].log| && Hopeless(t.parts[j].log[o])
      ensures Stored(t, t.parts[j].log[o]) || Rescued(t, j, o)
    {
      assert o < |s.parts[j].log| && t.parts[j].log[o] == s.parts[j].log[o];
      if !Stored(s, s.parts[j].log[o]) {
        var q :| s.parts[j].committed <= q < o && Rescues(s.parts[j].log[q], s.parts[j].log[o]);
        assert Rescues(t.parts[j].log[q], t.parts[j].log[o]);
      }
    }
    forall j | 0 <= j < |t.parts| ensures StoredBetween(t, j, t.parts[j].committed, t.parts[j].position) {
      assert StoredBetween(s, j, s.parts[j].committed, s.parts[j].position);
      StoredBetweenStays(s, t, j, s.parts[j].committed, s.parts[j].position);
    }
  }

  /** Without any fault, a run never escapes unless a hopeless record lies ahead. */
  lemma {:induction false} FaultlessRunsDoNotEscape(s: World, m: nat, steps: seq<Step>, t: World)
    requires WellFormed(s) && OnCourse(s) && Run(s, m, steps, t) && AllFaultless(steps)
    ensures NoEscape(s, m, steps)
    decreases |steps|
  {
    hide Apply, Faultless, Enabled, WellFormed, OnCourse;
    if steps != [] {
      FaultlessStep(s, m, steps[0]);
      StepShape(s, m, steps[0]);
      assert forall k | 0 <= k < |steps[1..]| :: steps[1..][k] == steps[k + 1];
      FaultlessRunsDoNotEscape(Apply(s, m, steps[0]), m, steps[1..], t);
    }
  }

  lemma FreshIsOnCourse(s: World)
    requires Fresh(s) && NoneHopeless(s)
    ensures OnCourse(s)
  {
    hide NoneHopeless, StoredBetween, Backed;
    forall i | 0 <= i < |s.parts| ensures StoredBetween(s, i, s.parts[i].committed, s.parts[i].position) {
      NothingBetween(s, i);
    }
  }

  // ------------------------------------------------------------------- a losing run

  lemma {:induction false} TameIsBenign(s: World, m: nat, steps: seq<Step>, t: World, mood: Mood)
    requires TameRun(s, m, steps, t, mood)
    ensures AllBenign(steps) && (!mood.blind ==> AllFaultless(steps))
    decreases |steps|
  {
    hide Apply, Enabled;
    if steps != [] {
      TameIsBenign(Apply(s, m, steps[0]), m, steps[1..], t, mood);
      TameStepIsBenign(s, steps[0], mood);
      forall k | 0 <= k < |steps| ensures Benign(steps[k]) && (!mood.blind ==> Faultless(steps[k])) {
        if k > 0 { assert steps[k] == steps[1..][k - 1]; }
      }
    }
  }

  lemma TameStepIsBenign(s: World, step: Step, mood: Mood)
    requires TameStep(s, step, mood)
    ensures Benign(step) && (!mood.blind ==> Faultless(step))
  {
    if step.Poll? {
      forall k, j | InBatch(step.ds, k, j) ensures Reliable(step.ds[k].outcomes[j])
        ensures !mood.blind ==> Perfect(step.ds[k].outcomes[j])
      {
        assert PlainOutcome(s, step.ds[0].outcomes[j], mood);
      }
    }
  }

  /** What the history may hold about records not yet consumed: they exist, their
      dead letters could be filed, and their events could be stored. */
  ghost predicate HistoryIsPossible(s: World) {
    forall i, o: nat | 0 <= i < |s.parts| && s.parts[i].committed <= o ::
      && (s.Key(i, o) in s.filings ==> o < |s.parts[i].log| && s.parts[i].log[o].letter.Fileable?)
      && ((exists w :: w in s.writes && w.source == s.Key(i, o)) ==> o < |s.parts[i].log| && s.parts[i].log[o].storable)
  }

  /** The id of an event, if its record has one. */
  ghost function IdsOf(v: Value): iset<string> {
    if v.envelope.Identified? then iset{v.envelope.eventId} else iset{}
  }

  ghost function WatchFor(r: RecordKey, v: Value): Watch {
    Watch(r, v, IdsOf(v))
  }

  /** No poll in this mood stores the event of a value as long as it only delivers
      records of partition i below the given offset. */
  ghost predicate Unaided(s: World, i: nat, o: nat, v: Value, mood: Mood)
    requires i < |s.parts| && o <= |s.parts[i].log|
  {
    forall id | id in IdsOf(v) ::
      && id !in s.store && !IsDeadLetterId(id) && id !in mood.pool
      && (mood.blind || forall q | s.parts[i].committed <= q < o :: !Rescues(s.parts[i].log[q], v))
  }

  lemma UnaidedIsSpared(s: World, i: nat, o: nat, v: Value, mood: Mood, r: RecordKey)
    requires i < |s.parts| && o <= |s.parts[i].log| && Unaided(s, i, o, v, mood)
    requires forall q | s.parts[i].committed <= q < o && s.Key(i, q) == r :: Hopeless(s.parts[i].log[q])
    ensures SparesRange(s, i, s.parts[i].committed, o, mood, WatchFor(r, v))
  {
    hide DeadLetterId;
    forall q | s.parts[i].committed <= q < o ensures SparesAt(s, i, q, mood, WatchFor(r, v)) {
      assert IsDeadLetterId(DeadLetterId(s.Key(i, q)));
      assert !mood.blind && v.envelope.Identified? ==> !Rescues(s.parts[i].log[q], v);
    }
  }

  /** A record that was never filed or written is open. */
  lemma UntouchedIsWatched(s: World, i: nat, o: nat, v: Value)
    requires HistoryIsPossible(s) && i < |s.parts| && s.parts[i].committed <= o && !Stored(s, v)
    requires o < |s.parts[i].log| ==> Hopeless(v) && v == s.parts[i].log[o]
    ensures Watching(s, WatchFor(s.Key(i, o), v))
  {
    hide DeadLetterId;
    var r := s.Key(i, o);
    forall id | Names(s, r, v, id) ensures v.envelope == Identified(id) {
    }
  }

  /** A record makes the worker escape when it gets there in this mood. */
  ghost predicate Doomed(s: World, i: nat, o: nat, mood: Mood)
    requires i < |s.parts| && o < |s.parts[i].log|
  {
    var v := s.parts[i].log[o];
    !v.letter.Fileable? && (mood.blind || (!Processable(v) && !Stored(s, v) && Unaided(s, i, o, v, mood)))
  }

  /** On the way to a doomed record its event is not stored. */
  lemma ReachDoomed(s: World, m: nat, i: nat, o: nat, mood: Mood, w: Watch) returns (steps: seq<Step>, t: World)
    requires WellFormed(s) && i < |s.parts| && s.parts[i].position == s.parts[i].committed <= o < |s.parts[i].log|
    requires Lined(s, m, i) && Endless(mood.pool) && HistoryIsPossible(s) && Doomed(s, i, o, mood)
    requires Watching(s, w) && SparesRange(s, i, s.parts[i].committed, o, mood, w)
    ensures TameRun(s, m, steps, t, mood) && Watching(t, w)
    ensures WellFormed(t) && SameLogs(s, t) && Lined(t, m, i) && t.parts[i].position == o
    ensures Stuck(t, s.parts[i].log[o], mood)
  {
    hide TameRun, WellFormed, Lined, Watching, SparesAt, HistoryIsPossible, Endless, Unaided;
    var v := s.parts[i].log[o];
    var own := WatchFor(s.Key(i, o), v);
    steps, t := Reach(s, m, i, o, mood);
    if !mood.blind {
      UntouchedIsWatched(s, i, o, v);
      UnaidedIsSpared(s, i, o, v, mood, s.Key(i, o));
      assert Watching(t, own);
      WatchedIsNotStored(t, own);
    }
  }

  lemma WatchedIsNotStored(s: World, w: Watch)
    requires Watching(s, w)
    ensures !Stored(s, w.v) && w.r !in s.filings
  {
    if w.v.envelope.Identified? { assert Names(s, w.r, w.v, w.v.envelope.eventId); }
  }

  /** A record that arrives next and whose event nothing else brings. */
  ghost predicate Newcomer(s: World, i: nat, o: nat, v: Value, mood: Mood)
    requires i < |s.parts| && o <= |s.parts[i].log|
  {
    v.letter.Fileable? && !Stored(s, v) && Unaided(s, i, o, v, mood)
  }

  lemma NewcomerIsWatched(s: World, s1: World, i: nat, o: nat, v: Value, mood: Mood)
    requires HistoryIsPossible(s) && i < |s.parts| && s.parts[i].committed <= o < |s.parts[i].log|
    requires Newcomer(s, i, o, v, mood) && s1 == s.(parts := s.parts[i := s.parts[i].(log := s.parts[i].log + [v])])
    ensures var w := WatchFor(s.Key(i, |s.parts[i].log|), v);
            Watching(s1, w) && SparesRange(s1, i, s.parts[i].committed, o, mood, w)
  {
    hide HistoryIsPossible, Open, SparesAt;
    var end := |s.parts[i].log|;
    var w := WatchFor(s.Key(i, end), v);
    UntouchedIsWatched(s, i, end, v);
    SameStoreSameOpen(s, s1, w.r, w.v, w.ids);
    UnaidedIsSpared(s, i, o, v, mood, w.r);
    forall q | s.parts[i].committed <= q < o ensures SparesAt(s1, i, q, mood, w) {
      assert SparesAt(s, i, q, mood, w);
      SparesWithLongerLog(s, s1, i, q, mood, w);
    }
  }

  lemma SparesWithLongerLog(s: World, t: World, i: nat, o: nat, mood: Mood, w: Watch)
    requires i < |s.parts| && SameShape(s, t) && o < |s.parts[i].log| && SparesAt(s, i, o, mood, w)
    ensures SparesAt(t, i, o, mood, w)
  {
    hide DeadLetterId;
  }

  lemma ArrivalKeepsDoom(s: World, s1: World, i: nat, o: nat, v: Value, mood: Mood)
    requires i < |s.parts| && s.parts[i].committed <= o < |s.parts[i].log|
    requires HistoryIsPossible(s) && Doomed(s, i, o, mood)
    requires s1 == s.(parts := s.parts[i := s.parts[i].(log := s.parts[i].log + [v])])
    requires s.Key(i, |s.parts[i].log|) !in s.filings
    ensures Doomed(s1, i, o, mood)
    ensures HistoryIsPossible(s1)
  {
    hide DeadLetterId;
    forall j, q: nat | 0 <= j < |s1.parts| && s1.parts[j].committed <= q
      ensures s1.Key(j, q) in s1.filings ==> q < |s1.parts[j].log| && s1.parts[j].log[q].letter.Fileable?
      ensures (exists w :: w in s1.writes && w.source == s1.Key(j, q)) ==>
          q < |s1.parts[j].log| && s1.parts[j].log[q].storable
    {
      assert s1.Key(j, q) == s.Key(j, q) && s1.parts[j].committed == s.parts[j].committed;
    }
    var u := s.parts[i].log[o];
    if !mood.blind {
      forall id | id in IdsOf(u), q | s.parts[i].committed <= q < o ensures !Rescues(s1.parts[i].log[q], u) {
        assert !Rescues(s.parts[i].log[q], u);
      }
    }
  }

  /** Whatever arrives behind a doomed record can be lost with it: it is polled
      together with that record's last attempt, skipped when the dead letter fails,
      and covered by the next commit. This holds for valid events, too. */
  lemma LoseNeighbour(s: World, m: nat, i: nat, o: nat, v: Value, mood: Mood) returns (steps: seq<Step>, t: World)
    requires Fresh(s) && m >= 1 && i < |s.parts| && s.parts[i].committed <= o < |s.parts[i].log|
    requires Endless(mood.pool) && HistoryIsPossible(s) && Doomed(s, i, o, mood) && Newcomer(s, i, o, v, mood)
    ensures Run(s, m, steps, t) && GeneratesNew(s, m, steps)
    ensures AllBenign(steps) && (!mood.blind ==> AllFaultless(steps))
    ensures Lost(t, i, |s.parts[i].log|, IdsOf(v)) && !Safe(t)
  {
    hide Run, TameRun, Apply, Lined, SparesAt, Watching, Doomed, HistoryIsPossible, Newcomer, Endless, GeneratesNew;
    hide AllBenign, AllFaultless, Safe, WellFormed, Stuck;
    var end := |s.parts[i].log|;
    var w := WatchFor(s.Key(i, end), v);
    assert WellFormed(s) by { FreshIsWellFormed(s); }
    FreshIsLined(s, m, i);
    var append := Append(i, v);
    var s1 := Arrival(s, m, i, v);
    NewcomerIsWatched(s, s1, i, o, v, mood);
    WatchedIsNotStored(s1, w);
    ArrivalKeepsDoom(s, s1, i, o, v, mood);
    var a, u := ReachDoomed(s1, m, i, o, mood, w);
    var b, x := AbandonTail(u, m, i, mood);
    assert Watching(x, w) by { StoreDecides(u, x, w); }
    BehindIsApart(s, x, i, o, v, mood);
    var c;
    c, t := CommitPast(x, m, i, mood, w);
    TameConcatenates(s1, m, a, u, b, x, mood);
    TameConcatenates(s1, m, a + b, x, c, t, mood);
    TameIsRun(s1, m, a + b + c, t, mood);
    TameIsBenign(s1, m, a + b + c, t, mood);
    RunOfOne(s, m, append);
    RunsConcatenate(s, m, [append], s1, a + b + c, t);
    steps := [append] + (a + b + c);
    FirstIsBenign(append, a + b + c, mood, v, i, s, o);
    WatchedIsLost(s, t, i, end, v, w);
  }

  lemma FreshIsWellFormed(s: World)
    requires Fresh(s)
    ensures WellFormed(s)
  {
  }

  lemma StoreDecides(s: World, t: World, w: Watch)
    requires Watching(s, w) && t.filings == s.filings && t.store == s.store && t.writes == s.writes
    ensures Watching(t, w)
  {
    hide Open;
    SameStoreSameOpen(s, t, w.r, w.v, w.ids);
  }

  lemma BehindIsApart(s: World, x: World, i: nat, o: nat, v: Value, mood: Mood)
    requires i < |s.parts| == |x.parts| && o <= |s.parts[i].log| && Newcomer(s, i, o, v, mood)
    requires x.parts[i].log == s.parts[i].log + [v] && x.parts[i].KeyAt(0) == s.parts[i].KeyAt(0)
    ensures var w := WatchFor(s.Key(i, |s.parts[i].log|), v);
            && SparesRange(x, i, |s.parts[i].log| + 1, |s.parts[i].log| + 1, mood, w)
            && Apart(x, i, |s.parts[i].log| + 1, mood, w)
  {
    hide IsDeadLetterId, DeadLetterId;
  }

  lemma FirstIsBenign(append: Step, rest: seq<Step>, mood: Mood, v: Value, i: nat, s: World, o: nat)
    requires append == Append(i, v) && i < |s.parts| && o <= |s.parts[i].log| && Newcomer(s, i, o, v, mood)
    requires AllBenign(rest) && (!mood.blind ==> AllFaultless(rest))
    ensures AllBenign([append] + rest) && (!mood.blind ==> AllFaultless([append] + rest))
  {
    forall k | 0 <= k < |rest| + 1
      ensures Benign(([append] + rest)[k]) && (!mood.blind ==> Faultless(([append] + rest)[k]))
    {
      if k > 0 { assert ([append] + rest)[k] == rest[k - 1]; }
    }
  }

  lemma WatchedIsLost(s: World, t: World, i: nat, o: nat, v: Value, w: Watch)
    requires WellFormed(t) && Watching(t, w) && i < |s.parts| && i < |t.parts| && o < |t.parts[i].log|
    requires w == WatchFor(s.Key(i, o), v) && t.Key(i, o) == s.Key(i, o) && t.parts[i].log[o] == v
    requires o < t.parts[i].committed
    ensures Lost(t, i, o, IdsOf(v)) && !Safe(t)
  {
    hide Open;
    LostIsUnsafe(t, i, o, IdsOf(v));
  }

  /** As long as the dead-letter path is answered, and whatever lookups, event
      writes, commits and crashes do: committed offsets stay handled on every run
      if and only if the dead letter of every record still to be consumed can be
      filed. */
  lemma SafeOnEveryBenignRunIffAllFileable(s: World, m: nat)
    requires Fresh(s) && Safe(s) && HistoryIsPossible(s) && m >= 1
    ensures AllFileable(s) <==>
            forall steps, t :: Run(s, m, steps, t) && AllBenign(steps) && GeneratesNew(s, m, steps) ==> Safe(t)
  {
    hide Run, AllBenign, Safe, HistoryIsPossible, Lost, GeneratesNew;
    if AllFileable(s) {
      forall steps, t | Run(s, m, steps, t) && AllBenign(steps) && GeneratesNew(s, m, steps) ensures Safe(t) {
        FileableRunsDoNotEscape(s, m, steps, t);
        CommittedIsHandled(s, m, steps, t);
      }
    } else {
      var i, o :| 0 <= i < |s.parts| && s.parts[i].committed <= o < |s.parts[i].log|
                  && !s.parts[i].log[o].letter.Fileable?;
      LongIdsAreEndless(0);
      var steps, t := LoseNeighbour(s, m, i, o, Malformed(), Mood(true, LongIds(0)));
    }
  }

  /** Without any fault of the environment, on every run and through every crash:
      committed offsets stay handled if and only if every record still to be consumed
      can be stored, can be filed, or has its event stored by the time it is reached. */
  lemma SafeOnEveryFaultlessRunIffNoneHopeless(s: World, m: nat)
    requires Fresh(s) && Safe(s) && HistoryIsPossible(s) && ProperLogs(s) && m >= 1
    ensures NoneHopeless(s) <==>
            forall steps, t :: Run(s, m, steps, t) && AllFaultless(steps) && GeneratesNew(s, m, steps) ==> Safe(t)
  {
    hide Run, AllFaultless, Safe, HistoryIsPossible, ProperLogs, Lost, GeneratesNew, Rescued;
    if NoneHopeless(s) {
      FreshIsOnCourse(s);
      forall steps, t | Run(s, m, steps, t) && AllFaultless(steps) && GeneratesNew(s, m, steps) ensures Safe(t) {
        FaultlessRunsDoNotEscape(s, m, steps, t);
        CommittedIsHandled(s, m, steps, t);
      }
    } else {
      var i, o :| 0 <= i < |s.parts| && s.parts[i].committed <= o < |s.parts[i].log|
                  && Hopeless(s.parts[i].log[o]) && !Stored(s, s.parts[i].log[o]) && !Rescued(s, i, o);
      var mood := UnrescuedIsDoomed(s, i, o);
      var steps, t := LoseNeighbour(s, m, i, o, Malformed(), mood);
    }
  }

  lemma UnrescuedIsDoomed(s: World, i: nat, o: nat) returns (mood: Mood)
    requires i < |s.parts| && s.parts[i].committed <= o < |s.parts[i].log| && ProperLogs(s)
    requires Hopeless(s.parts[i].log[o]) && !Stored(s, s.parts[i].log[o]) && !Rescued(s, i, o)
    ensures !mood.blind && Endless(mood.pool) && Doomed(s, i, o, mood) && Newcomer(s, i, o, Malformed(), mood)
  {
    hide IsDeadLetterId;
    var v := s.parts[i].log[o];
    var n := if v.envelope.Identified? then |v.envelope.eventId| else 0;
    mood := Mood(false, LongIds(n));
    LongIdsAreEndless(n);
    assert ProperValue(v);
  }

  /** In an environment without any fault, a hopeless record is itself committed past
      and left unhandled, if nobody has stored its event and no record of its
      partition can. */
  lemma PollPast(s: World, m: nat, i: nat, o: nat, mood: Mood) returns (steps: seq<Step>, t: World)
    requires Fresh(s) && m >= 1 && i < |s.parts| && s.parts[i].committed <= o < |s.parts[i].log|
    requires Hopeless(s.parts[i].log[o]) && HistoryIsPossible(s) && !mood.blind && Endless(mood.pool)
    requires Unaided(s, i, |s.parts[i].log|, s.parts[i].log[o], mood)
    ensures Run(s, m, steps, t) && AllFaultless(steps) && GeneratesNew(s, m, steps)
    ensures Lost(t, i, o, IdsOf(s.parts[i].log[o])) && !Safe(t)
  {
    hide Run, TameRun, Apply, Lined, SparesAt, Watching, HistoryIsPossible, Endless, GeneratesNew, Apart, Unaided;
    hide AllFaultless, AllBenign, Safe, WellFormed, Hopeless, Processable;
    var v, end := s.parts[i].log[o], |s.parts[i].log|;
    var w := WatchFor(s.Key(i, o), v);
    assert WellFormed(s) by { FreshIsWellFormed(s); }
    FreshIsLined(s, m, i);
    UnaidedIsNotStored(s, i, end, v, mood);
    UntouchedIsWatched(s, i, o, v);
    UnaidedIsSpared(s, i, end, v, mood, s.Key(i, o));
    UnaidedIsApart(s, i, o, v, mood);
    var a, u := Reach(s, m, i, o, mood);
    SparesWithSameLog(s, u, i, s.parts[i].committed, end, mood, w);
    var b, x := PassHead(u, m, i, mood);
    assert SparesAt(u, i, o, mood, w);
    SparesWithSameLog(u, x, i, s.parts[i].committed, end, mood, w);
    ApartWithSameLog(s, x, i, end, mood, w);
    var c;
    c, t := CommitPast(x, m, i, mood, w);
    TameConcatenates(s, m, a, u, b, x, mood);
    TameConcatenates(s, m, a + b, x, c, t, mood);
    steps := a + b + c;
    TameIsRun(s, m, steps, t, mood);
    TameIsBenign(s, m, steps, t, mood);
    WatchedIsLost(s, t, i, o, v, w);
  }

  lemma UnaidedIsNotStored(s: World, i: nat, o: nat, v: Value, mood: Mood)
    requires i < |s.parts| && o <= |s.parts[i].log| && Unaided(s, i, o, v, mood)
    ensures !Stored(s, v)
  {
    if v.envelope.Identified? { assert v.envelope.eventId in IdsOf(v); }
  }

  lemma UnaidedIsApart(s: World, i: nat, o: nat, v: Value, mood: Mood)
    requires i < |s.parts| && o < |s.parts[i].log| && Unaided(s, i, |s.parts[i].log|, v, mood)
    ensures Apart(s, i, |s.parts[i].log|, mood, WatchFor(s.Key(i, o), v))
  {
    hide IsDeadLetterId;
  }

  // --------------------------------------------------- one environment failure suffices

  /** The dead-letter topic refuses, everything else is calm. */
  function Lossy(id: string): Outcome {
    Calm(id).(publish := Refused)
  }

  lemma InvalidVerdict(s: World, m: nat, r: RecordKey, v: Value, id: string)
    requires v.envelope.Invalid? && AttemptsOf(s, r) + 1 >= m
    ensures var p := ProcessWithRetry(s, m, r, v, Lossy(id));
            && p.verdict.Escaped?
            && p.world.filings == s.filings && p.world.store == s.store && p.world.writes == s.writes
  {
    hide DeadLetterId;
    assert s.store + Lossy(id).foreign == s.store;
  }

  lemma InvalidIsTriedAgain(s: World, m: nat, r: RecordKey, v: Value, id: string)
    requires v.envelope.Invalid? && AttemptsOf(s, r) + 1 < m
    ensures var p := ProcessWithRetry(s, m, r, v, Calm(id));
            && p.verdict.Pending?
            && p.world.filings == s.filings && p.world.store == s.store && p.world.writes == s.writes
  {
    hide DeadLetterId;
    assert s.store + Calm(id).foreign == s.store;
  }

  /** Calm attempts on an invalid record, up to the last. */
  lemma {:induction false} TryAllButOnce(s: World, m: nat, i: nat, mood: Mood) returns (steps: seq<Step>, t: World)
    requires WellFormed(s) && i < |s.parts| && s.parts[i].position < |s.parts[i].log| && Lined(s, m, i)
    requires s.parts[i].log[s.parts[i].position].envelope.Invalid? && Endless(mood.pool) && !mood.blind
    ensures TameRun(s, m, steps, t, mood)
    ensures WellFormed(t) && SameLogs(s, t) && Lined(t, m, i) && t.parts[i].position == s.parts[i].position
    ensures AttemptsAt(t, i, t.parts[i].position) + 1 >= m
    ensures t.filings == s.filings && t.store == s.store && t.writes == s.writes
    decreases m - AttemptsAt(s, i, s.parts[i].position)
  {
    hide ProcessWithRetry, Apply, WellFormed, Endless;
    var o := s.parts[i].position;
    steps, t := [], s;
    if AttemptsAt(s, i, o) + 1 < m {
      var outs := TakeOutcomes(s, 1, mood);
      assert PlainOutcome(s, outs[0], mood);
      var id := outs[0].generatedId;
      assert outs == [Calm(id)];
      var step := HeadPoll(s, i, Calm(id));
      InvalidIsTriedAgain(Seek(s, i, o + 1), m, s.Key(i, o), s.parts[i].log[o], id);
      PollPart(s, m, i, [Calm(id)]);
      TameOne(s, m, step, mood);
      var u := Apply(s, m, step);
      steps, t := TryAllButOnce(u, m, i, mood);
      TameConcatenates(s, m, [step], u, steps, t, mood);
      steps := [step] + steps;
    }
  }

  /** The last attempt on an invalid record, with the dead letter refused. */
  lemma RefuseOnce(s: World, m: nat, i: nat, mood: Mood) returns (id: string, t: World)
    requires WellFormed(s) && i < |s.parts| && s.parts[i].position < |s.parts[i].log| && Lined(s, m, i)
    requires s.parts[i].log[s.parts[i].position].envelope.Invalid? && Endless(mood.pool)
    requires AttemptsAt(s, i, s.parts[i].position) + 1 >= m
    ensures Run(s, m, [HeadPoll(s, i, Lossy(id))], t) && GeneratesNew(s, m, [HeadPoll(s, i, Lossy(id))])
    ensures WellFormed(t) && SameLogs(s, t) && Lined(t, m, i) && t.parts[i].position == s.parts[i].position + 1
    ensures t.filings == s.filings && t.store == s.store && t.writes == s.writes
  {
    hide ProcessWithRetry, Apply, Run, WellFormed, GeneratesNew;
    var o := s.parts[i].position;
    assert Offers(mood.pool, s.store.Keys);
    id :| id in mood.pool && id !in s.store.Keys;
    var step := HeadPoll(s, i, Lossy(id));
    assert NewIds(s, step.ds);
    assert AttemptsOf(Seek(s, i, o + 1), s.Key(i, o)) == AttemptsAt(s, i, o);
    InvalidVerdict(Seek(s, i, o + 1), m, s.Key(i, o), s.parts[i].log[o], id);
    PollPart(s, m, i, [Lossy(id)]);
    RunOfOne(s, m, step);
    t := Apply(s, m, step);
  }

  /** Without the assumption that dead letters never raise nothing can be promised:
      for every retry limit and every malformed record still to be consumed, a run
      without any fault but one refused publication, that record's own, loses it
      for good. */
  lemma OneRefusalLosesAnyMalformedRecord(s: World, m: nat, i: nat, o: nat)
    returns (steps: seq<Step>, t: World, k: nat, id: string)
    requires Fresh(s) && m >= 1 && i < |s.parts| && s.parts[i].committed <= o < |s.parts[i].log|
    requires s.parts[i].log[o].envelope.Invalid? && s.Key(i, o) !in s.filings
    ensures Run(s, m, steps, t) && GeneratesNew(s, m, steps) && Lost(t, i, o, iset{}) && !Safe(t)
    ensures k < |steps| && steps[k] == Poll([Delivery(i, o, [Lossy(id)])], Applied)
    ensures forall j | 0 <= j < |steps| && j != k :: Faultless(steps[j])
  {
    hide Run, TameRun, Apply, Lined, SparesAt, Faultless, Watching, Safe, WellFormed, Endless, GeneratesNew;
    hide Benign, HeadPoll, Apart;
    var v, end := s.parts[i].log[o], |s.parts[i].log|;
    var w, mood := WatchFor(s.Key(i, o), v), Mood(false, LongIds(0));
    LongIdsAreEndless(0);
    assert WellFormed(s) by { FreshIsWellFormed(s); }
    FreshIsLined(s, m, i);
    InvalidIsWatched(s, i, o, mood);
    var a, u := Reach(s, m, i, o, mood);
    var b, x := TryAllButOnce(u, m, i, mood);
    var y;
    id, y := RefuseOnce(x, m, i, mood);
    var refused := HeadPoll(x, i, Lossy(id));
    StoreDecides(u, y, w);
    InvalidIsSpared(y, i, o, mood, w);
    var c;
    c, t := CommitPast(y, m, i, mood, w);
    TameConcatenates(s, m, a, u, b, x, mood);
    TameIsRun(s, m, a + b, x, mood);
    TameIsBenign(s, m, a + b, x, mood);
    TameIsRun(y, m, c, t, mood);
    TameIsBenign(y, m, c, t, mood);
    RunsConcatenate(s, m, a + b, x, [refused], y);
    RunsConcatenate(s, m, a + b + [refused], y, c, t);
    steps, k := a + b + [refused] + c, |a + b|;
    OneInTheMiddle(a + b, refused, c);
    assert steps[k] == Poll([Delivery(i, o, [Lossy(id)])], Applied) by { HeadPollIs(x, i, Lossy(id)); }
    WatchedIsLost(s, t, i, o, v, w);
  }

  lemma HeadPollIs(s: World, i: nat, out: Outcome)
    requires i < |s.parts|
    ensures HeadPoll(s, i, out) == Poll([Delivery(i, s.parts[i].position, [out])], Applied)
  {
  }

  lemma InvalidIsWatched(s: World, i: nat, o: nat, mood: Mood)
    requires i < |s.parts| && s.parts[i].position <= o < |s.parts[i].log| && s.parts[i].log[o].envelope.Invalid?
    requires s.Key(i, o) !in s.filings
    ensures var w := WatchFor(s.Key(i, o), s.parts[i].log[o]);
            Watching(s, w) && SparesRange(s, i, s.parts[i].position, o, mood, w)
  {
  }

  lemma InvalidIsSpared(s: World, i: nat, o: nat, mood: Mood, w: Watch)
    requires i < |s.parts| && s.parts[i].position == o + 1 && w.r == s.Key(i, o) && w.ids == iset{}
    requires o < |s.parts[i].log|
    ensures SparesRange(s, i, o + 1, |s.parts[i].log|, mood, w) && Apart(s, i, |s.parts[i].log|, mood, w)
  {
  }

  lemma OneInTheMiddle(a: seq<Step>, x: Step, b: seq<Step>)
    requires AllFaultless(a) && AllFaultless(b)
    ensures forall j | 0 <= j < |a + [x] + b| && j != |a| :: Faultless((a + [x] + b)[j])
  {
    forall j | 0 <= j < |a + [x] + b| && j != |a| ensures Faultless((a + [x] + b)[j]) {
      if j < |a| {
        assert (a + [x] + b)[j] == a[j];
      } else {
        assert (a + [x] + b)[j] == b[j - |a| - 1];
      }
    }
  }
}
