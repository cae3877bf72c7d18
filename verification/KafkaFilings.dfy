/** What a dead letter on file looks like: the entry under a record's dead-letter
    id is that record's own, through foreign writers, crashes and replays, as long
    as nobody uses an id of the dead-letter form for an event. */
module KafkaFilings {
  import opened DeadLetterIds
  import opened EventLog
  import opened KafkaSafety

  ghost predicate ProperValue(v: Value) {
    v.envelope.Identified? ==> !IsDeadLetterId(v.envelope.eventId)
  }

  /** Other writers and generated ids stay clear of the dead-letter ids. */
  ghost predicate ProperOutcome(o: Outcome) {
    && (forall id | id in o.foreign :: !IsDeadLetterId(id) && o.foreign[id].result.Processed?)
    && !IsDeadLetterId(o.generatedId)
  }

  ghost predicate ProperBatch(ds: seq<Delivery>) {
    forall k, j | 0 <= k < |ds| && 0 <= j < |ds[k].outcomes| :: ProperOutcome(ds[k].outcomes[j])
  }

  ghost predicate ProperStep(step: Step) {
    match step
    case Poll(ds, _) => ProperBatch(ds)
    case Crash(ds) => ProperBatch(ds)
    case Append(_, v) => ProperValue(v)
  }

  ghost predicate ProperSteps(steps: seq<Step>) {
    forall k | 0 <= k < |steps| :: ProperStep(steps[k])
  }

  ghost predicate ProperLogs(s: World) {
    forall i, o | 0 <= i < |s.parts| && 0 <= o < |s.parts[i].log| :: ProperValue(s.parts[i].log[o])
  }

  /** A letter about the record that reports this many attempts. */
  ghost predicate Reported(s: World, r: RecordKey, attempts: nat) {
    exists l :: l in s.letters && l.source == r && l.attempts == attempts
  }

  /** The entry is the record's own, and agrees with a letter that was sent. */
  ghost predicate OwnEntry(s: World, r: RecordKey) {
    && DeadLetterId(r) in s.store
    && s.store[DeadLetterId(r)].result.DeadLettered? && s.store[DeadLetterId(r)].source == r
    && Reported(s, r, s.store[DeadLetterId(r)].receiveCount)
  }

  /** Dead-letter entries and dead-letter ids belong together, each with its record. */
  ghost predicate InOrder(s: World) {
    && (forall r: RecordKey :: DeadLetterId(r) in s.store ==> OwnEntry(s, r))
    && (forall id | id in s.store && s.store[id].result.DeadLettered? :: id == DeadLetterId(s.store[id].source))
  }

  // -------------------------------------------------------------------- one record

  lemma EventPutStaysInOrder(s: World, t: World, id: string, e: Entry)
    requires InOrder(s) && t.store == s.store[id := e] && e.result.Processed? && !IsDeadLetterId(id)
    requires t.letters == s.letters
    ensures InOrder(t)
  {
    hide DeadLetterId;
    forall r: RecordKey | DeadLetterId(r) in t.store ensures OwnEntry(t, r) {
      assert OwnEntry(s, r);
    }
  }

  lemma FilingStaysInOrder(s: World, t: World, r: RecordKey, n: nat)
    requires InOrder(s) && t.store == s.store[DeadLetterId(r) := Entry(DeadLettered, r, n)]
    requires s.letters <= t.letters && Reported(t, r, n)
    ensures InOrder(t)
  {
    hide DeadLetterId;
    assert forall l :: l in s.letters ==> l in t.letters;
    forall q: RecordKey | DeadLetterId(q) in t.store ensures OwnEntry(t, q) {
      if DeadLetterId(q) == DeadLetterId(r) {
        DeadLetterIdIsInjective(q, r);
      } else {
        assert OwnEntry(s, q);
      }
    }
  }

  lemma ForeignersStayInOrder(s: World, t: World, o: Outcome)
    requires InOrder(s) && ProperOutcome(o) && t.store == s.store + o.foreign && t.letters == s.letters
    ensures InOrder(t)
  {
    hide DeadLetterId;
    forall r: RecordKey | DeadLetterId(r) in t.store ensures OwnEntry(t, r) {
      assert IsDeadLetterId(DeadLetterId(r));
      assert OwnEntry(s, r);
    }
  }

  lemma SameStoreSameOrder(s: World, t: World)
    requires InOrder(s) && t.store == s.store && s.letters <= t.letters
    ensures InOrder(t)
  {
    hide DeadLetterId;
    assert forall l :: l in s.letters ==> l in t.letters;
    forall r: RecordKey | DeadLetterId(r) in t.store ensures OwnEntry(t, r) {
      assert OwnEntry(s, r);
    }
  }

  lemma AttemptStaysInOrder(s: World, r: RecordKey, v: Value, o: Outcome)
    requires InOrder(s) && ProperValue(v) && ProperOutcome(o)
    ensures InOrder(ProcessRecord(s, r, v, o).world)
  {
    hide InOrder, IsDeadLetterId;
    var s0 := s.(store := s.store + o.foreign);
    var t := ProcessRecord(s, r, v, o).world;
    ForeignersStayInOrder(s, s0, o);
    if t != s0 {
      var id := if v.envelope.Identified? then v.envelope.eventId else o.generatedId;
      EventPutStaysInOrder(s0, t, id, Entry(Processed, r, 1));
    }
  }

  lemma DeadLetterStaysInOrder(s: World, r: RecordKey, v: Value, n: nat, o: Outcome)
    requires InOrder(s)
    ensures InOrder(DeadLetter(s, r, v, n, o).world)
  {
    hide InOrder, DeadLetterId;
    var t := DeadLetter(s, r, v, n, o).world;
    if t.store == s.store {
      SameStoreSameOrder(s, t);
    } else {
      assert t.letters[|s.letters|].source == r && t.letters[|s.letters|].attempts == n;
      FilingStaysInOrder(s, t, r, n);
    }
  }

  lemma CallStaysInOrder(s: World, m: nat, r: RecordKey, v: Value, o: Outcome)
    requires InOrder(s) && ProperValue(v) && ProperOutcome(o)
    ensures InOrder(ProcessWithRetry(s, m, r, v, o).world)
  {
    hide InOrder, ProcessRecord, DeadLetter, ProperValue, ProperOutcome;
    var p := ProcessWithRetry(s, m, r, v, o).world;
    var a := ProcessRecord(s, r, v, o);
    AttemptStaysInOrder(s, r, v, o);
    if a.ok {
      SameStoreSameOrder(a.world, p);
    } else {
      var n := AttemptsOf(s, r) + 1;
      var s1 := a.world.(attempts := a.world.attempts[r := n], failed := a.world.failed + multiset{r});
      SameStoreSameOrder(a.world, s1);
      if n >= m {
        DeadLetterStaysInOrder(s1, r, v, n, o);
        SameStoreSameOrder(DeadLetter(s1, r, v, n, o).world, p);
      }
    }
  }

  // --------------------------------------------------------------------------- runs

  lemma {:induction false} PassStaysInOrder(s: World, m: nat, i: nat, offset: nat, outcomes: seq<Outcome>)
    requires i < |s.parts| && offset + |outcomes| <= |s.parts[i].log| && InOrder(s) && ProperLogs(s)
    requires forall j | 0 <= j < |outcomes| :: ProperOutcome(outcomes[j])
    ensures InOrder(DeliverFrom(s, m, i, offset, outcomes).world)
    decreases |outcomes|
  {
    hide ProcessWithRetry, InOrder, ProperOutcome, ProperValue;
    if outcomes != [] {
      CallStaysInOrder(s, m, s.Key(i, offset), s.parts[i].log[offset], outcomes[0]);
      var p := ProcessWithRetry(s, m, s.Key(i, offset), s.parts[i].log[offset], outcomes[0]);
      if p.verdict.Settled? {
        PassStaysInOrder(p.world, m, i, offset + 1, outcomes[1..]);
      } else {
        SameStoreSameOrder(p.world, DeliverFrom(s, m, i, offset, outcomes).world);
      }
    }
  }

  lemma {:induction false} DrainStaysInOrder(s: World, m: nat, ds: seq<Delivery>, any: bool, failed: bool)
    requires InRange(s, ds) && ProperBatch(ds) && InOrder(s) && ProperLogs(s)
    ensures InOrder(DrainBatches(s, m, ds, any, failed).world)
    decreases |ds|
  {
    hide DeliverFrom, InOrder, ProperOutcome, ProperValue;
    if ds != [] {
      var d := ds[0];
      var p := DeliverFrom(s, m, d.index, d.offset, d.outcomes);
      PassStaysInOrder(s, m, d.index, d.offset, d.outcomes);
      if !p.end.Aborted? {
        assert ProperBatch(ds[1..]) by { assert forall k | 0 <= k < |ds[1..]| :: ds[1..][k] == ds[k + 1]; }
        DrainStaysInOrder(p.world, m, ds[1..], AnyAfter(any, d, p), failed || p.end.Rewound?);
      }
    }
  }

  lemma StepStaysInOrder(s: World, m: nat, step: Step)
    requires WellFormed(s) && Enabled(s, step) && ProperStep(step) && InOrder(s) && ProperLogs(s)
    ensures InOrder(Apply(s, m, step)) && ProperLogs(Apply(s, m, step))
  {
    hide DrainBatches, InOrder, ProperBatch, ProperValue, Backed, Grows;
    var t := Apply(s, m, step);
    if step.Append? {
      SameStoreSameOrder(s, t);
    } else {
      var s1, u := Advance(s, step.ds), Iterate(s, m, step.ds).world;
      SameStoreSameOrder(s, s1);
      DrainStaysInOrder(s1, m, step.ds, false, false);
      SameStoreSameOrder(u, t);
      TurnShape(s, m, step.ds);
      GrowsKeepsShape(s, u);
    }
  }

  /** On every run, escapes included, and however often a record was dead-lettered:
      there is one entry for it, under its own id, and no other key holds a
      dead-letter entry. */
  lemma {:induction false} FilesOnEveryRun(s: World, m: nat, steps: seq<Step>, t: World)
    requires WellFormed(s) && InOrder(s) && ProperLogs(s) && Run(s, m, steps, t) && ProperSteps(steps)
    ensures WellFormed(t) && InOrder(t) && ProperLogs(t) && forall r | r in t.filings :: OwnEntry(t, r)
    decreases |steps|
  {
    hide Apply, Enabled, ProperStep, ProperLogs, DeadLetterId;
    if steps != [] {
      StepStaysInOrder(s, m, steps[0]);
      StepShape(s, m, steps[0]);
      assert forall k | 0 <= k < |steps[1..]| :: steps[1..][k] == steps[k + 1];
      FilesOnEveryRun(Apply(s, m, steps[0]), m, steps[1..], t);
    } else {
      forall r | r in t.filings ensures OwnEntry(t, r) { assert Backed(t, r); }
    }
  }

  /** What is there to show for a record: its own dead letter, sent and on file, or
      an event entry that no dead letter overwrote. */
  ghost predicate Evident(s: World, r: RecordKey, v: Value) {
    || (HasLetter(s, r) && OwnEntry(s, r))
    || match v.envelope
       case Invalid => false
       case Anonymous => exists w :: w in s.writes && w.source == r && w.id in s.store
       case Identified(id) => id in s.store && s.store[id].result.Processed?
  }

  lemma HandledIsEvident(s: World, r: RecordKey, v: Value)
    requires InOrder(s) && Handled(s, r, v) && ProperValue(v) && (r in s.filings ==> OwnEntry(s, r))
    ensures Evident(s, r, v)
  {
    hide DeadLetterId;
  }

  /** At-least-once with its evidence: for every offset below a committed one, the
      store holds the event's own entry or the record's own dead-letter entry. */
  lemma CommittedIsEvident(s: World, m: nat, steps: seq<Step>, t: World)
    requires Fresh(s) && Safe(s) && Run(s, m, steps, t) && NoEscape(s, m, steps)
    requires InOrder(s) && ProperLogs(s) && ProperSteps(steps)
    ensures forall i, o | 0 <= i < |t.parts| && 0 <= o < t.parts[i].committed ::
              o < |t.parts[i].log| && Evident(t, t.Key(i, o), t.parts[i].log[o])
  {
    hide Run, NoEscape, InOrder, ProperSteps, Handled, Evident, OwnEntry, ProperValue;
    CommittedIsHandled(s, m, steps, t);
    FilesOnEveryRun(s, m, steps, t);
    forall i, o | 0 <= i < |t.parts| && 0 <= o < t.parts[i].committed
      ensures o < |t.parts[i].log| && Evident(t, t.Key(i, o), t.parts[i].log[o])
    {
      assert HandledBetween(t, i, 0, t.parts[i].committed);
      HandledIsEvident(t, t.Key(i, o), t.parts[i].log[o]);
    }
  }
}
