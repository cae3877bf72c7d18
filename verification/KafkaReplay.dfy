/** Replay idempotence of a single worker under any crash schedule: which entries
    can be written twice, and which can change once written. */
module KafkaReplay {
  import opened DeadLetterIds
  import opened RemoteEffects
  import opened EventLog
  import opened KafkaSafety
  import opened KafkaFilings

  /** No other writer interferes and generated ids are new: neither an event id
      of some record nor a dead-letter id. */
  ghost predicate Quiet(o: Outcome, names: iset<string>) {
    o.foreign == map[] && o.generatedId !in names && !IsDeadLetterId(o.generatedId)
  }

  ghost predicate QuietBatch(ds: seq<Delivery>, names: iset<string>) {
    forall k, j | 0 <= k < |ds| && 0 <= j < |ds[k].outcomes| :: Quiet(ds[k].outcomes[j], names)
  }

  ghost predicate QuietStep(step: Step, names: iset<string>) {
    match step
    case Poll(ds, _) => QuietBatch(ds, names)
    case Crash(ds) => QuietBatch(ds, names)
    case Append(_, v) => v.envelope.Identified? ==> v.envelope.eventId in names
  }

  ghost predicate QuietSteps(steps: seq<Step>, names: iset<string>) {
    forall k | 0 <= k < |steps| :: QuietStep(steps[k], names)
  }

  ghost predicate NoNameIsADeadLetterId(names: iset<string>) {
    forall id | id in names :: !IsDeadLetterId(id)
  }

  ghost predicate LogsNamed(s: World, names: iset<string>) {
    forall i, o | 0 <= i < |s.parts| && 0 <= o < |s.parts[i].log| && s.parts[i].log[o].envelope.Identified? ::
      s.parts[i].log[o].envelope.eventId in names
  }

  /** The record a write came from: the one with that id, or an anonymous one. */
  ghost predicate Origin(s: World, w: Write, names: iset<string>, i: nat) {
    var o := w.source.offset;
    && i < |s.parts| && o < |s.parts[i].log| && w.source == s.Key(i, o)
    && s.parts[i].log[o].storable
    && (s.parts[i].log[o].envelope == Identified(w.id) || (s.parts[i].log[o].envelope.Anonymous? && w.id !in names))
  }

  ghost predicate HasOrigin(s: World, w: Write, names: iset<string>) {
    exists i :: Origin(s, w, names, i)
  }

  ghost predicate Recorded(s: World, w: Write) {
    w.id in s.store && s.store[w.id] == Entry(Processed, w.source, 1)
  }

  /** Every write came from a record; every event id is written at most once, and its
      entry still is the one that write made. */
  ghost predicate Ledger(s: World, names: iset<string>) {
    && (forall k | 0 <= k < |s.writes| ::
          HasOrigin(s, s.writes[k], names) && (s.writes[k].id in names ==> Recorded(s, s.writes[k])))
    && (forall j, k | 0 <= j < k < |s.writes| :: s.writes[j].id in names ==> s.writes[j].id != s.writes[k].id)
  }

  ghost predicate Unchanged(s: World, t: World, names: iset<string>) {
    forall id | id in names && id in s.store :: id in t.store && t.store[id] == s.store[id]
  }

  ghost predicate KeepsBooks(s: World, t: World, names: iset<string>) {
    Ledger(t, names) && Unchanged(s, t, names)
  }

  // -------------------------------------------------------------------- one record

  lemma LedgerCarriesOver(s: World, t: World, names: iset<string>)
    requires Ledger(s, names) && t.store == s.store && t.writes == s.writes && SameShape(s, t)
    ensures KeepsBooks(s, t, names)
  {
    hide DeadLetterId;
    forall k | 0 <= k < |s.writes| ensures HasOrigin(t, t.writes[k], names) {
      assert HasOrigin(s, s.writes[k], names);
      var i :| Origin(s, s.writes[k], names, i);
      assert Origin(t, t.writes[k], names, i);
    }
    forall k | 0 <= k < |s.writes| && s.writes[k].id in names ensures Recorded(t, t.writes[k]) {
      assert Recorded(s, s.writes[k]);
    }
  }

  lemma SaveKeepsLedger(s: World, id: string, r: RecordKey, v: Value, effect: Effect, names: iset<string>)
    requires Ledger(s, names) && (id in names ==> id !in s.store)
    requires v.storable ==> HasOrigin(s, Write(id, r), names)
    ensures KeepsBooks(s, SaveEvent(s, id, r, v, effect).world, names)
  {
    hide DeadLetterId;
    var t := SaveEvent(s, id, r, v, effect).world;
    if t != s {
      var n := |s.writes|;
      forall k | 0 <= k < |t.writes|
        ensures HasOrigin(t, t.writes[k], names) && (t.writes[k].id in names ==> Recorded(t, t.writes[k]))
      {
        if k < n {
          assert t.writes[k] == s.writes[k];
          assert HasOrigin(s, s.writes[k], names) && (s.writes[k].id in names ==> Recorded(s, s.writes[k]));
        }
        var i :| Origin(s, t.writes[k], names, i);
        assert Origin(t, t.writes[k], names, i);
      }
      forall j, k | 0 <= j < k < |t.writes| && t.writes[j].id in names ensures t.writes[j].id != t.writes[k].id {
        assert t.writes[j] == s.writes[j] && Recorded(s, s.writes[j]);
        if k < n { assert t.writes[k] == s.writes[k]; }
      }
    }
  }

  lemma ProcessKeepsLedger(s: World, i: nat, o: nat, out: Outcome, names: iset<string>)
    requires Ledger(s, names) && LogsNamed(s, names) && NoNameIsADeadLetterId(names) && Quiet(out, names)
    requires i < |s.parts| && o < |s.parts[i].log|
    ensures KeepsBooks(s, ProcessRecord(s, s.Key(i, o), s.parts[i].log[o], out).world, names)
  {
    hide Ledger, IsDeadLetterId;
    var r, v := s.Key(i, o), s.parts[i].log[o];
    assert s.store + out.foreign == s.store;
    var s0 := s.(store := s.store + out.foreign);
    assert s0 == s;
    LedgerCarriesOver(s, s, names);
    if !out.lookupFails {
      match v.envelope
      case Anonymous =>
        assert v.storable ==> Origin(s, Write(out.generatedId, r), names, i);
        SaveKeepsLedger(s, out.generatedId, r, v, out.save, names);
      case Identified(id) =>
        if id !in s.store {
          assert v.storable ==> Origin(s, Write(id, r), names, i);
          SaveKeepsLedger(s, id, r, v, out.save, names);
        }
      case Invalid =>
    }
  }

  lemma DeadLetterKeepsLedger(s: World, r: RecordKey, v: Value, n: nat, out: Outcome, names: iset<string>)
    requires Ledger(s, names) && NoNameIsADeadLetterId(names)
    ensures KeepsBooks(s, DeadLetter(s, r, v, n, out).world, names)
  {
    hide DeadLetterId;
    var t := DeadLetter(s, r, v, n, out).world;
    if t.store == s.store {
      LedgerCarriesOver(s, t, names);
    } else {
      assert t.store == s.store[DeadLetterId(r) := Entry(DeadLettered, r, n)];
      assert IsDeadLetterId(DeadLetterId(r));
      forall k | 0 <= k < |s.writes|
        ensures HasOrigin(t, t.writes[k], names) && (t.writes[k].id in names ==> Recorded(t, t.writes[k]))
      {
        assert HasOrigin(s, s.writes[k], names) && (s.writes[k].id in names ==> Recorded(s, s.writes[k]));
        var i :| Origin(s, s.writes[k], names, i);
        assert Origin(t, t.writes[k], names, i);
      }
    }
  }

  lemma UnchangedTransitively(s: World, t: World, u: World, names: iset<string>)
    requires Unchanged(s, t, names) && KeepsBooks(t, u, names)
    ensures KeepsBooks(s, u, names)
  {
  }

  lemma CallKeepsLedger(s: World, m: nat, i: nat, o: nat, out: Outcome, names: iset<string>)
    requires Ledger(s, names) && LogsNamed(s, names) && NoNameIsADeadLetterId(names) && Quiet(out, names)
    requires i < |s.parts| && o < |s.parts[i].log|
    ensures KeepsBooks(s, ProcessWithRetry(s, m, s.Key(i, o), s.parts[i].log[o], out).world, names)
  {
    hide Ledger, ProcessRecord, DeadLetter, Unchanged;
    var r, v := s.Key(i, o), s.parts[i].log[o];
    var p := ProcessWithRetry(s, m, r, v, out).world;
    var a := ProcessRecord(s, r, v, out);
    ProcessKeepsLedger(s, i, o, out, names);
    var n := AttemptsOf(s, r) + 1;
    var s1 := a.world.(attempts := a.world.attempts[r := n], failed := a.world.failed + multiset{r});
    if a.ok {
      LedgerCarriesOver(a.world, p, names);
      UnchangedTransitively(s, a.world, p, names);
    } else {
      LedgerCarriesOver(a.world, s1, names);
      UnchangedTransitively(s, a.world, s1, names);
      if n >= m {
        var d := DeadLetter(s1, r, v, n, out).world;
        DeadLetterKeepsLedger(s1, r, v, n, out, names);
        UnchangedTransitively(s, s1, d, names);
        LedgerCarriesOver(d, p, names);
        UnchangedTransitively(s, d, p, names);
      }
    }
  }

  // --------------------------------------------------------------------------- runs

  lemma {:induction false} PassKeepsLedger(
    s: World, m: nat, i: nat, offset: nat, outcomes: seq<Outcome>, names: iset<string>)
    requires i < |s.parts| && offset + |outcomes| <= |s.parts[i].log|
    requires Ledger(s, names) && LogsNamed(s, names) && NoNameIsADeadLetterId(names)
    requires forall j | 0 <= j < |outcomes| :: Quiet(outcomes[j], names)
    ensures KeepsBooks(s, DeliverFrom(s, m, i, offset, outcomes).world, names)
    decreases |outcomes|
  {
    hide ProcessWithRetry, Ledger, Unchanged, Quiet;
    var t := DeliverFrom(s, m, i, offset, outcomes).world;
    if outcomes == [] {
      LedgerCarriesOver(s, s, names);
    } else {
      CallKeepsLedger(s, m, i, offset, outcomes[0], names);
      var p := ProcessWithRetry(s, m, s.Key(i, offset), s.parts[i].log[offset], outcomes[0]);
      if p.verdict.Settled? {
        PassKeepsLedger(p.world, m, i, offset + 1, outcomes[1..], names);
      } else {
        LedgerCarriesOver(p.world, t, names);
      }
      UnchangedTransitively(s, p.world, t, names);
    }
  }

  lemma {:induction false} DrainKeepsLedger(
    s: World, m: nat, ds: seq<Delivery>, any: bool, failed: bool, names: iset<string>)
    requires InRange(s, ds) && QuietBatch(ds, names)
    requires Ledger(s, names) && LogsNamed(s, names) && NoNameIsADeadLetterId(names)
    ensures KeepsBooks(s, DrainBatches(s, m, ds, any, failed).world, names)
    decreases |ds|
  {
    hide DeliverFrom, Ledger, Unchanged, Quiet;
    var t := DrainBatches(s, m, ds, any, failed).world;
    if ds == [] {
      LedgerCarriesOver(s, s, names);
    } else {
      var d := ds[0];
      var p := DeliverFrom(s, m, d.index, d.offset, d.outcomes);
      PassKeepsLedger(s, m, d.index, d.offset, d.outcomes, names);
      if !p.end.Aborted? {
        assert QuietBatch(ds[1..], names) by { assert forall k | 0 <= k < |ds[1..]| :: ds[1..][k] == ds[k + 1]; }
        DrainKeepsLedger(p.world, m, ds[1..], AnyAfter(any, d, p), failed || p.end.Rewound?, names);
        UnchangedTransitively(s, p.world, t, names);
      }
    }
  }

  lemma TurnKeepsLedger(s: World, m: nat, ds: seq<Delivery>, names: iset<string>)
    requires Pollable(s, ds) && QuietBatch(ds, names)
    requires Ledger(s, names) && LogsNamed(s, names) && NoNameIsADeadLetterId(names)
    ensures KeepsBooks(s, Iterate(s, m, ds).world, names)
  {
    hide DrainBatches, Ledger, Unchanged, QuietBatch;
    var s1 := Advance(s, ds);
    LedgerCarriesOver(s, s1, names);
    DrainKeepsLedger(s1, m, ds, false, false, names);
    UnchangedTransitively(s, s1, Iterate(s, m, ds).world, names);
  }

  lemma StepKeepsLedger(s: World, m: nat, step: Step, names: iset<string>)
    requires WellFormed(s) && Enabled(s, step) && QuietStep(step, names)
    requires Ledger(s, names) && LogsNamed(s, names) && NoNameIsADeadLetterId(names)
    ensures KeepsBooks(s, Apply(s, m, step), names) && LogsNamed(Apply(s, m, step), names)
  {
    hide Iterate, Ledger, Unchanged, QuietBatch;
    var t := Apply(s, m, step);
    if step.Append? {
      LedgerCarriesOver(s, t, names);
    } else {
      var u := Iterate(s, m, step.ds).world;
      TurnShape(s, m, step.ds);
      TurnKeepsLedger(s, m, step.ds, names);
      LedgerCarriesOver(u, t, names);
      UnchangedTransitively(s, u, t, names);
    }
  }

  lemma {:induction false} LedgerOnEveryRun(s: World, m: nat, steps: seq<Step>, t: World, names: iset<string>)
    requires WellFormed(s) && Run(s, m, steps, t) && QuietSteps(steps, names)
    requires Ledger(s, names) && LogsNamed(s, names) && NoNameIsADeadLetterId(names)
    ensures Ledger(t, names) && Unchanged(s, t, names) && LogsNamed(t, names) && WellFormed(t)
    decreases |steps|
  {
    hide Apply, Ledger, Enabled, QuietStep;
    if steps != [] {
      var u := Apply(s, m, steps[0]);
      StepKeepsLedger(s, m, steps[0], names);
      StepShape(s, m, steps[0]);
      assert forall k | 0 <= k < |steps[1..]| :: steps[1..][k] == steps[k + 1];
      LedgerOnEveryRun(u, m, steps[1..], t, names);
    }
  }

  lemma QuietIsProper(steps: seq<Step>, names: iset<string>)
    requires QuietSteps(steps, names) && NoNameIsADeadLetterId(names)
    ensures ProperSteps(steps)
  {
    hide IsDeadLetterId;
    forall k | 0 <= k < |steps| ensures ProperStep(steps[k]) { assert QuietStep(steps[k], names); }
  }

  /** On every run of one worker, escapes and crashes included: each event id is
      written at most once and its stored source never changes afterwards; however
      often a record is dead-lettered, one entry under its own id tells of it. */
  lemma ReplayIsIdempotent(s: World, m: nat, steps: seq<Step>, t: World, names: iset<string>)
    requires WellFormed(s) && Run(s, m, steps, t) && QuietSteps(steps, names)
    requires Ledger(s, names) && InOrder(s) && LogsNamed(s, names) && NoNameIsADeadLetterId(names)
    ensures Ledger(t, names) && Unchanged(s, t, names) && LogsNamed(t, names) && WellFormed(t)
    ensures InOrder(t) && forall r | r in t.filings :: OwnEntry(t, r)
  {
    hide Run, QuietSteps, Ledger, InOrder, IsDeadLetterId, ProperSteps, OwnEntry;
    LedgerOnEveryRun(s, m, steps, t, names);
    QuietIsProper(steps, names);
    FilesOnEveryRun(s, m, steps, t);
  }
}
