/** The other side of at-least-once: what an exception that escapes the
    dead-letter path costs, and exactly which logs are safe to consume. */
module KafkaLoss {
  import opened DeadLetterIds
  import opened EventLog
  import opened KafkaSafety

  // ------------------------------------------------- what a commit can lose, exactly

  ghost predicate CommitsNow(s: World, m: nat, step: Step)
    requires Enabled(s, step)
  {
    step.Poll? && !step.commit.Refused? && Iterate(s, m, step.ds).end.Commits?
  }

  /** What a turn delivers itself is never the problem when it commits. */
  lemma CommitCovers(s: World, m: nat, step: Step, t: World)
    requires WellFormed(s) && Safe(s) && Enabled(s, step) && CommitsNow(s, m, step) && t == Apply(s, m, step)
    ensures |t.parts| == |s.parts|
    ensures Safe(t) <==>
            forall i | 0 <= i < |s.parts| :: HandledBetween(t, i, s.parts[i].committed, s.parts[i].position)
  {
    hide Iterate, Handled;
    var u := Iterate(s, m, step.ds).world;
    TurnShape(s, m, step.ds);
    StepShape(s, m, step);
    TurnHandlesWhatItPasses(s, m, step.ds, Positions(s));
    assert Grows(u, t);
    forall i | 0 <= i < |s.parts|
      ensures HandledBetween(t, i, 0, s.parts[i].committed)
      ensures HandledBetween(t, i, s.parts[i].position, t.parts[i].committed)
    {
      assert HandledBetween(s, i, 0, s.parts[i].committed);
      HandledBetweenStays(s, t, i, 0, s.parts[i].committed);
      assert HandledBetween(u, i, Positions(s)[i], Positions(u)[i]);
      HandledBetweenStays(u, t, i, s.parts[i].position, u.parts[i].position);
    }
    if Safe(t) {
      forall i | 0 <= i < |s.parts| ensures HandledBetween(t, i, s.parts[i].committed, s.parts[i].position) {
        assert HandledBetween(t, i, 0, t.parts[i].committed);
      }
    }
    if forall i | 0 <= i < |s.parts| :: HandledBetween(t, i, s.parts[i].committed, s.parts[i].position) {
      forall i | 0 <= i < |t.parts| ensures HandledBetween(t, i, 0, t.parts[i].committed) {
        assert HandledBetween(t, i, s.parts[i].committed, s.parts[i].position);
      }
    }
  }

  // --------------------------------------------- what a turn leaves as it found it

  /** Neither the event nor the dead letter can ever be stored. */
  predicate Hopeless(v: Value) {
    !Processable(v) && !v.letter.Fileable?
  }

  /** A key that would count as the record's event if it were in the store. */
  ghost predicate Names(s: World, r: RecordKey, v: Value, id: string) {
    match v.envelope
    case Invalid => false
    case Anonymous => Write(id, r) in s.writes
    case Identified(eventId) => id == eventId
  }

  /** The record is not handled, and only the given ids could change that. */
  ghost predicate Open(s: World, r: RecordKey, v: Value, ids: iset<string>) {
    r !in s.filings && forall id | Names(s, r, v, id) :: id in ids && id !in s.store
  }

  /** Processing record q with value u does not store anything under the id. */
  ghost predicate Misses(id: string, q: RecordKey, u: Value, out: Outcome) {
    && id !in out.foreign && id != DeadLetterId(q)
    && (u.storable && !out.lookupFails ==>
          u.envelope != Identified(id) && (u.envelope.Anonymous? ==> id != out.generatedId))
  }

  ghost predicate Spares(ids: iset<string>, r: RecordKey, q: RecordKey, u: Value, out: Outcome) {
    (forall id | id in ids :: Misses(id, q, u, out)) && (q == r ==> Hopeless(u))
  }

  lemma OpenIsUnhandled(s: World, r: RecordKey, v: Value, ids: iset<string>)
    requires Open(s, r, v, ids)
    ensures !Handled(s, r, v)
  {
    hide DeadLetterId;
    if v.envelope.Anonymous? {
      forall w | w in s.writes && w.source == r ensures w.id !in s.store {
        assert Names(s, r, v, w.id);
      }
    }
  }

  lemma UnhandledIsOpen(s: World, r: RecordKey, v: Value, ids: iset<string>)
    requires WellFormed(s) && !Handled(s, r, v) && forall id | Names(s, r, v, id) :: id in ids
    ensures Open(s, r, v, ids)
  {
    hide DeadLetterId;
    if v.envelope.Anonymous? {
      forall id | Names(s, r, v, id) ensures id !in s.store {
        assert Write(id, r) in s.writes;
      }
    }
  }

  lemma AttemptSpares(s: World, q: RecordKey, u: Value, out: Outcome, r: RecordKey, v: Value, ids: iset<string>)
    requires Open(s, r, v, ids) && Spares(ids, r, q, u, out)
    ensures Open(ProcessRecord(s, q, u, out).world, r, v, ids)
  {
    hide DeadLetterId;
    var t := ProcessRecord(s, q, u, out).world;
    forall id | Names(t, r, v, id) ensures id in ids && id !in t.store {
      assert Names(s, r, v, id);
      assert Misses(id, q, u, out);
    }
  }

  lemma DeadLetterSpares(
    s: World, q: RecordKey, u: Value, n: nat, out: Outcome, r: RecordKey, v: Value, ids: iset<string>)
    requires Open(s, r, v, ids) && Spares(ids, r, q, u, out)
    ensures Open(DeadLetter(s, q, u, n, out).world, r, v, ids)
  {
    hide DeadLetterId;
    var t := DeadLetter(s, q, u, n, out).world;
    forall id | Names(t, r, v, id) ensures id in ids && id !in t.store {
      assert Names(s, r, v, id);
      assert Misses(id, q, u, out);
    }
  }

  lemma SameStoreSameOpen(s: World, t: World, r: RecordKey, v: Value, ids: iset<string>)
    requires Open(s, r, v, ids) && t.store == s.store && t.writes == s.writes && t.filings == s.filings
    ensures Open(t, r, v, ids)
  {
    forall id | Names(t, r, v, id) ensures id in ids && id !in t.store {
      assert Names(s, r, v, id);
    }
  }

  lemma CallSpares(s: World, m: nat, q: RecordKey, u: Value, out: Outcome, r: RecordKey, v: Value, ids: iset<string>)
    requires Open(s, r, v, ids) && Spares(ids, r, q, u, out)
    ensures Open(ProcessWithRetry(s, m, q, u, out).world, r, v, ids)
  {
    hide ProcessRecord, DeadLetter, Open, Spares;
    var p := ProcessWithRetry(s, m, q, u, out).world;
    var a := ProcessRecord(s, q, u, out);
    AttemptSpares(s, q, u, out, r, v, ids);
    if a.ok {
      SameStoreSameOpen(a.world, p, r, v, ids);
    } else {
      var n := AttemptsOf(s, q) + 1;
      var s1 := a.world.(attempts := a.world.attempts[q := n], failed := a.world.failed + multiset{q});
      SameStoreSameOpen(a.world, s1, r, v, ids);
      if n >= m {
        DeadLetterSpares(s1, q, u, n, out, r, v, ids);
        SameStoreSameOpen(DeadLetter(s1, q, u, n, out).world, p, r, v, ids);
      }
    }
  }

  lemma {:induction false} PassSpares(
    s: World, m: nat, i: nat, offset: nat, outcomes: seq<Outcome>, r: RecordKey, v: Value, ids: iset<string>)
    requires i < |s.parts| && offset + |outcomes| <= |s.parts[i].log| && Open(s, r, v, ids)
    requires forall j | 0 <= j < |outcomes| ::
               Spares(ids, r, s.Key(i, offset + j), s.parts[i].log[offset + j], outcomes[j])
    ensures Open(DeliverFrom(s, m, i, offset, outcomes).world, r, v, ids)
    decreases |outcomes|
  {
    hide ProcessWithRetry, Open, Spares;
    if outcomes != [] {
      var q, u := s.Key(i, offset), s.parts[i].log[offset];
      var p := ProcessWithRetry(s, m, q, u, outcomes[0]);
      assert Spares(ids, r, s.Key(i, offset + 0), s.parts[i].log[offset + 0], outcomes[0]);
      CallSpares(s, m, q, u, outcomes[0], r, v, ids);
      if p.verdict.Settled? {
        forall j | 0 <= j < |outcomes[1..]|
          ensures Spares(ids, r, p.world.Key(i, offset + 1 + j), p.world.parts[i].log[offset + 1 + j], outcomes[1..][j])
        {
          assert Spares(ids, r, s.Key(i, offset + (j + 1)), s.parts[i].log[offset + (j + 1)], outcomes[j + 1]);
        }
        PassSpares(p.world, m, i, offset + 1, outcomes[1..], r, v, ids);
      } else {
        SameStoreSameOpen(p.world, DeliverFrom(s, m, i, offset, outcomes).world, r, v, ids);
      }
    }
  }

  /** No record of the batch can handle record r. */
  ghost predicate BatchSpares(s: World, ds: seq<Delivery>, r: RecordKey, ids: iset<string>) {
    InRange(s, ds) &&
    forall k, j | 0 <= k < |ds| && 0 <= j < |ds[k].outcomes| ::
      Spares(ids, r, s.Key(ds[k].index, ds[k].offset + j), s.parts[ds[k].index].log[ds[k].offset + j],
        ds[k].outcomes[j])
  }

  lemma SparesWithSameLogs(s: World, t: World, ds: seq<Delivery>, r: RecordKey, ids: iset<string>)
    requires BatchSpares(s, ds, r, ids) && SameShape(s, t)
    ensures BatchSpares(t, ds, r, ids)
  {
    hide Spares;
    forall k, j | 0 <= k < |ds| && 0 <= j < |ds[k].outcomes|
      ensures Spares(ids, r, t.Key(ds[k].index, ds[k].offset + j), t.parts[ds[k].index].log[ds[k].offset + j],
                     ds[k].outcomes[j])
    {
      assert Spares(ids, r, s.Key(ds[k].index, ds[k].offset + j), s.parts[ds[k].index].log[ds[k].offset + j],
                    ds[k].outcomes[j]);
    }
  }

  lemma BatchTailSpares(s: World, ds: seq<Delivery>, r: RecordKey, ids: iset<string>)
    requires BatchSpares(s, ds, r, ids) && ds != []
    ensures BatchSpares(s, ds[1..], r, ids)
  {
    hide Spares;
    var rest := ds[1..];
    forall k, j | 0 <= k < |rest| && 0 <= j < |rest[k].outcomes|
      ensures Spares(ids, r, s.Key(rest[k].index, rest[k].offset + j), s.parts[rest[k].index].log[rest[k].offset + j],
                     rest[k].outcomes[j])
    {
      assert rest[k] == ds[k + 1];
      assert Spares(ids, r, s.Key(ds[k + 1].index, ds[k + 1].offset + j),
                    s.parts[ds[k + 1].index].log[ds[k + 1].offset + j], ds[k + 1].outcomes[j]);
    }
  }

  lemma {:induction false} DrainSpares(
    s: World, m: nat, ds: seq<Delivery>, any: bool, failed: bool, r: RecordKey, v: Value, ids: iset<string>)
    requires BatchSpares(s, ds, r, ids) && Open(s, r, v, ids)
    ensures Open(DrainBatches(s, m, ds, any, failed).world, r, v, ids)
    decreases |ds|
  {
    hide DeliverFrom, Open, Spares, Grows;
    if ds != [] {
      var d := ds[0];
      var p := DeliverFrom(s, m, d.index, d.offset, d.outcomes);
      PassSpares(s, m, d.index, d.offset, d.outcomes, r, v, ids);
      if !p.end.Aborted? {
        PassGrows(s, m, d.index, d.offset, d.outcomes);
        GrowsKeepsShape(s, p.world);
        BatchTailSpares(s, ds, r, ids);
        SparesWithSameLogs(s, p.world, ds[1..], r, ids);
        DrainSpares(p.world, m, ds[1..], AnyAfter(any, d, p), failed || p.end.Rewound?, r, v, ids);
      }
    }
  }

  lemma TurnSpares(s: World, m: nat, ds: seq<Delivery>, r: RecordKey, v: Value, ids: iset<string>)
    requires BatchSpares(s, ds, r, ids) && Open(s, r, v, ids)
    ensures Open(Iterate(s, m, ds).world, r, v, ids)
  {
    hide DrainBatches, Open, BatchSpares;
    assert InRange(s, ds) by { BatchIsInRange(s, ds, r, ids); }
    var s1 := Advance(s, ds);
    SameStoreSameOpen(s, s1, r, v, ids);
    SparesWithSameLogs(s, s1, ds, r, ids);
    DrainSpares(s1, m, ds, false, false, r, v, ids);
  }

  lemma BatchIsInRange(s: World, ds: seq<Delivery>, r: RecordKey, ids: iset<string>)
    requires BatchSpares(s, ds, r, ids)
    ensures InRange(s, ds)
  {
  }

  ghost predicate BatchMisses(s: World, ds: seq<Delivery>, ids: iset<string>) {
    InRange(s, ds) &&
    forall id, k, j | id in ids && 0 <= k < |ds| && 0 <= j < |ds[k].outcomes| ::
      Misses(id, s.Key(ds[k].index, ds[k].offset + j), s.parts[ds[k].index].log[ds[k].offset + j], ds[k].outcomes[j])
  }

  /** No turn reaches back behind the positions it starts from. */
  lemma BehindIsSpared(s: World, ds: seq<Delivery>, i: nat, o: nat, ids: iset<string>)
    requires WellFormed(s) && Pollable(s, ds) && i < |s.parts| && o < s.parts[i].position && BatchMisses(s, ds, ids)
    ensures BatchSpares(s, ds, s.Key(i, o), ids)
  {
    hide Misses, Backed;
    forall k, j | 0 <= k < |ds| && 0 <= j < |ds[k].outcomes|
      ensures Spares(ids, s.Key(i, o), s.Key(ds[k].index, ds[k].offset + j), s.parts[ds[k].index].log[ds[k].offset + j],
                     ds[k].outcomes[j])
    {
      var e := ds[k].index;
      if e < i { assert s.parts[e].topic != s.parts[i].topic || s.parts[e].number != s.parts[i].number; }
      if i < e { assert s.parts[i].topic != s.parts[e].topic || s.parts[i].number != s.parts[e].number; }
    }
  }

  /** What the records that earlier turns left behind would be stored as. */
  ghost function SkippedNames(s: World): iset<string>
    requires WellFormed(s)
  {
    iset i, o, id | 0 <= i < |s.parts| && s.parts[i].committed <= o < s.parts[i].position
                    && Names(s, s.Key(i, o), s.parts[i].log[o], id) :: id
  }

  /** A turn that commits, and neither stores nor is told about the event of a
      record that earlier turns of the process moved past without committing, is
      safe if and only if all those records were handled before it began. */
  lemma CommitIsSafeIffNothingWasSkipped(s: World, m: nat, step: Step, t: World)
    requires WellFormed(s) && Safe(s) && Enabled(s, step) && CommitsNow(s, m, step) && t == Apply(s, m, step)
    requires BatchMisses(s, step.ds, SkippedNames(s))
    ensures Safe(t) <==>
            forall i | 0 <= i < |s.parts| :: HandledBetween(s, i, s.parts[i].committed, s.parts[i].position)
  {
    hide Iterate, Handled, Safe, BatchMisses, BatchSpares, Open, Backed, Grows;
    CommitCovers(s, m, step, t);
    StepShape(s, m, step);
    var ids := SkippedNames(s);
    forall i | 0 <= i < |s.parts|
      ensures HandledBetween(t, i, s.parts[i].committed, s.parts[i].position)
          <==> HandledBetween(s, i, s.parts[i].committed, s.parts[i].position)
    {
      GrowsKeepsShape(s, t);
      if HandledBetween(s, i, s.parts[i].committed, s.parts[i].position) {
        HandledBetweenStays(s, t, i, s.parts[i].committed, s.parts[i].position);
      } else {
        var o :| s.parts[i].committed <= o < s.parts[i].position && !Handled(s, s.Key(i, o), s.parts[i].log[o]);
        SkippedStaysOpen(s, m, step, t, i, o);
        assert t.Key(i, o) == s.Key(i, o) && t.parts[i].log[o] == s.parts[i].log[o];
      }
    }
  }

  lemma SkippedStaysOpen(s: World, m: nat, step: Step, t: World, i: nat, o: nat)
    requires WellFormed(s) && Enabled(s, step) && step.Poll? && t == Apply(s, m, step)
    requires BatchMisses(s, step.ds, SkippedNames(s)) && i < |s.parts|
    requires s.parts[i].committed <= o < s.parts[i].position && !Handled(s, s.Key(i, o), s.parts[i].log[o])
    ensures !Handled(t, s.Key(i, o), s.parts[i].log[o])
  {
    hide Iterate, Handled, BatchMisses, BatchSpares, Open, Backed, Names;
    var r, v, ids := s.Key(i, o), s.parts[i].log[o], SkippedNames(s);
    UnhandledIsOpen(s, r, v, ids);
    BehindIsSpared(s, step.ds, i, o, ids);
    TurnSpares(s, m, step.ds, r, v, ids);
    SameStoreSameOpen(Iterate(s, m, step.ds).world, t, r, v, ids);
    OpenIsUnhandled(t, r, v, ids);
  }

  // ------------------------------------------------------------- losing for good

  /** A record, valid or not, that lies unhandled behind the consumer; only the given
      ids in the store could still make it count as handled. */
  ghost predicate Stranded(s: World, i: nat, o: nat, ids: iset<string>) {
    && i < |s.parts| && o < |s.parts[i].log| && o < s.parts[i].position
    && Open(s, s.Key(i, o), s.parts[i].log[o], ids)
  }

  /** ... and behind the committed offset as well. */
  ghost predicate Lost(s: World, i: nat, o: nat, ids: iset<string>) {
    Stranded(s, i, o, ids) && o < s.parts[i].committed
  }

  /** The step stores nothing under these ids: neither the worker, for another record
      with the same event id, nor anybody else. */
  ghost predicate StepMisses(s: World, step: Step, ids: iset<string>) {
    step.Append? || BatchMisses(s, step.ds, ids)
  }

  ghost predicate RunMisses(s: World, m: nat, steps: seq<Step>, ids: iset<string>)
    decreases |steps|
  {
    steps != [] ==>
      && Enabled(s, steps[0]) && StepMisses(s, steps[0], ids)
      && RunMisses(Apply(s, m, steps[0]), m, steps[1..], ids)
  }

  lemma LostIsUnsafe(s: World, i: nat, o: nat, ids: iset<string>)
    requires Lost(s, i, o, ids)
    ensures !Handled(s, s.Key(i, o), s.parts[i].log[o]) && !Safe(s)
  {
    hide Handled, Open;
    OpenIsUnhandled(s, s.Key(i, o), s.parts[i].log[o], ids);
    assert !HandledBetween(s, i, 0, s.parts[i].committed);
  }

  lemma TurnLeavesStranded(s: World, m: nat, ds: seq<Delivery>, i: nat, o: nat, ids: iset<string>)
    requires WellFormed(s) && Pollable(s, ds) && Stranded(s, i, o, ids) && BatchMisses(s, ds, ids)
    ensures Stranded(Iterate(s, m, ds).world, i, o, ids)
  {
    hide Iterate, BatchSpares, BatchMisses, Grows, Backed, Open;
    BehindIsSpared(s, ds, i, o, ids);
    TurnSpares(s, m, ds, s.Key(i, o), s.parts[i].log[o], ids);
    TurnShape(s, m, ds);
    GrowsKeepsShape(s, Iterate(s, m, ds).world);
  }

  lemma SameStoreSameStranded(s: World, t: World, i: nat, o: nat, ids: iset<string>)
    requires Stranded(s, i, o, ids) && SameShape(s, t) && o < t.parts[i].position
    requires t.store == s.store && t.writes == s.writes && t.filings == s.filings
    ensures Stranded(t, i, o, ids)
  {
    hide Open;
    SameStoreSameOpen(s, t, s.Key(i, o), s.parts[i].log[o], ids);
  }

  /** Until the process restarts, a stranded record stays stranded, as long as its
      event is not stored by others; and the first commit that succeeds turns it into
      a lost one. */
  lemma StrandedUntilRestart(s: World, m: nat, step: Step, i: nat, o: nat, ids: iset<string>)
    requires WellFormed(s) && Stranded(s, i, o, ids) && Enabled(s, step) && !step.Crash? && StepMisses(s, step, ids)
    ensures Stranded(Apply(s, m, step), i, o, ids)
    ensures CommitsNow(s, m, step) ==> Lost(Apply(s, m, step), i, o, ids)
  {
    hide Iterate, Grows, Backed, BatchMisses, Open;
    var t := Apply(s, m, step);
    if step.Poll? {
      TurnLeavesStranded(s, m, step.ds, i, o, ids);
      SameStoreSameStranded(Iterate(s, m, step.ds).world, t, i, o, ids);
    } else {
      SameStoreSameStranded(s, t, i, o, ids);
    }
  }

  lemma LossSurvivesStep(s: World, m: nat, step: Step, i: nat, o: nat, ids: iset<string>)
    requires WellFormed(s) && Lost(s, i, o, ids) && Enabled(s, step) && StepMisses(s, step, ids)
    ensures Lost(Apply(s, m, step), i, o, ids)
  {
    hide Iterate, Grows, Backed, BatchMisses, Open;
    var t := Apply(s, m, step);
    if step.Append? {
      SameStoreSameStranded(s, t, i, o, ids);
    } else {
      var u := Iterate(s, m, step.ds).world;
      TurnLeavesStranded(s, m, step.ds, i, o, ids);
      TurnShape(s, m, step.ds);
      SameStoreSameStranded(u, t, i, o, ids);
    }
  }

  /** A lost record stays unhandled on every continuation, restarts included, on which
      its event is not stored by others: the worker never comes back to it. */
  lemma {:induction false} LossIsPermanent(
    s: World, m: nat, steps: seq<Step>, t: World, i: nat, o: nat, ids: iset<string>)
    requires WellFormed(s) && Lost(s, i, o, ids) && Run(s, m, steps, t) && RunMisses(s, m, steps, ids)
    ensures Lost(t, i, o, ids) && !Handled(t, t.Key(i, o), t.parts[i].log[o]) && !Safe(t)
    decreases |steps|
  {
    hide Apply, Stranded, Enabled, WellFormed, Handled, StepMisses;
    if steps == [] {
      assert Lost(t, i, o, ids) ==> i < |t.parts| && o < |t.parts[i].log| by { LostIsThere(t, i, o, ids); }
      LostIsUnsafe(t, i, o, ids);
    } else {
      StepShape(s, m, steps[0]);
      LossSurvivesStep(s, m, steps[0], i, o, ids);
      LossIsPermanent(Apply(s, m, steps[0]), m, steps[1..], t, i, o, ids);
    }
  }

  lemma LostIsThere(s: World, i: nat, o: nat, ids: iset<string>)
    ensures Lost(s, i, o, ids) ==> i < |s.parts| && o < |s.parts[i].log|
  {
  }

  lemma {:induction false} NoIdIsMissed(s: World, m: nat, steps: seq<Step>, t: World)
    requires WellFormed(s) && Run(s, m, steps, t)
    ensures RunMisses(s, m, steps, iset{})
    decreases |steps|
  {
    hide Apply, WellFormed;
    if steps != [] {
      StepShape(s, m, steps[0]);
      NoIdIsMissed(Apply(s, m, steps[0]), m, steps[1..], t);
    }
  }

  /** No id could help a record that is not a valid envelope: it is lost for good on
      every continuation. */
  lemma MalformedLossIsPermanent(s: World, m: nat, steps: seq<Step>, t: World, i: nat, o: nat)
    requires WellFormed(s) && Lost(s, i, o, iset{}) && Run(s, m, steps, t)
    ensures Lost(t, i, o, iset{}) && !Safe(t)
  {
    hide Lost, WellFormed, Run, RunMisses;
    NoIdIsMissed(s, m, steps, t);
    LossIsPermanent(s, m, steps, t, i, o, iset{});
  }
}
