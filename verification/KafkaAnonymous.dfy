/** When one record can leave two entries behind: exactly when its envelope
    carries no event id of its own. */
module KafkaAnonymous {
  import opened DeadLetterIds
  import opened EventLog
  import opened KafkaSafety
  import opened KafkaPolling
  import opened KafkaFilings
  import opened KafkaReplay

  /** A valid envelope without an id, which the table can hold. */
  predicate Nameless(v: Value) {
    v.envelope.Anonymous? && v.storable
  }

  ghost predicate WrittenOnce(s: World, r: RecordKey) {
    forall j, k | 0 <= j < k < |s.writes| :: s.writes[j].source != r || s.writes[k].source != r
  }

  lemma {:induction false} RunGrows(s: World, m: nat, steps: seq<Step>, t: World)
    requires WellFormed(s) && Run(s, m, steps, t)
    ensures WellFormed(t) && Grows(s, t)
    decreases |steps|
  {
    hide Apply, Enabled, WellFormed;
    if steps != [] {
      StepShape(s, m, steps[0]);
      RunGrows(Apply(s, m, steps[0]), m, steps[1..], t);
      GrowsTransitively(s, Apply(s, m, steps[0]), t);
    }
  }

  /** A record with an id of its own, or one that is never stored at all. */
  lemma NamedRecordIsWrittenOnce(t: World, i: nat, o: nat, names: iset<string>)
    requires WellFormed(t) && Ledger(t, names) && LogsNamed(t, names)
    requires i < |t.parts| && o < |t.parts[i].log| && !Nameless(t.parts[i].log[o])
    ensures WrittenOnce(t, t.Key(i, o))
  {
    var r := t.Key(i, o);
    forall j, k | 0 <= j < k < |t.writes| && t.writes[j].source == r && t.writes[k].source == r ensures false {
      OriginOf(t, t.writes[j], names, i, o);
      OriginOf(t, t.writes[k], names, i, o);
    }
  }

  lemma OriginOf(t: World, w: Write, names: iset<string>, i: nat, o: nat)
    requires WellFormed(t) && HasOrigin(t, w, names) && i < |t.parts| && o < |t.parts[i].log|
    requires w.source == t.Key(i, o) && !Nameless(t.parts[i].log[o])
    ensures t.parts[i].log[o].envelope == Identified(w.id)
  {
    var j :| Origin(t, w, names, j);
    assert j == i;
  }

  /** The ids that may be generated: no record's event id and no dead-letter id. */
  ghost function QuietIds(names: iset<string>): iset<string> {
    iset id: string | id !in names && !IsDeadLetterId(id)
  }

  lemma {:induction false} TameIsQuiet(s: World, m: nat, steps: seq<Step>, t: World, names: iset<string>)
    requires TameRun(s, m, steps, t, Mood(false, QuietIds(names)))
    ensures QuietSteps(steps, names)
    decreases |steps|
  {
    hide Apply, Enabled, IsDeadLetterId;
    if steps != [] {
      TameIsQuiet(Apply(s, m, steps[0]), m, steps[1..], t, names);
      TameStepIsQuiet(s, steps[0], names);
      forall k | 0 <= k < |steps| ensures QuietStep(steps[k], names) {
        if k > 0 { assert steps[k] == steps[1..][k - 1]; }
      }
    }
  }

  lemma TameStepIsQuiet(s: World, step: Step, names: iset<string>)
    requires TameStep(s, step, Mood(false, QuietIds(names)))
    ensures QuietStep(step, names)
  {
    hide IsDeadLetterId;
    if step.Poll? {
      forall k, j | 0 <= k < |step.ds| && 0 <= j < |step.ds[k].outcomes|
        ensures Quiet(step.ds[k].outcomes[j], names)
      {
        assert PlainOutcome(s, step.ds[0].outcomes[j], Mood(false, QuietIds(names)));
      }
    }
  }

  /** The process dies right after it stored an anonymous record. */
  lemma StoreAndCrash(s: World, m: nat, i: nat, id: string) returns (t: World)
    requires WellFormed(s) && m >= 1 && i < |s.parts| && s.parts[i].position < |s.parts[i].log|
    requires Nameless(s.parts[i].log[s.parts[i].position])
    ensures var step := Crash([Delivery(i, s.parts[i].position, [Calm(id)])]);
            Enabled(s, step) && t == Apply(s, m, step)
    ensures WellFormed(t) && SameLogs(s, t) && Lined(t, m, i)
    ensures t.parts[i].position <= s.parts[i].position && t.parts[i].committed == s.parts[i].committed
    ensures t.writes == s.writes + [Write(id, s.Key(i, s.parts[i].position))] && id in t.store
  {
    hide Iterate, DeadLetterId;
    var o := s.parts[i].position;
    var step := Crash([Delivery(i, o, [Calm(id)])]);
    PartPollEffect(s, m, i, [Calm(id)]);
    StepShape(s, m, step);
    TurnShape(s, m, step.ds);
    t := Apply(s, m, step);
    var p := ProcessWithRetry(Seek(s, i, o + 1), m, s.Key(i, o), s.parts[i].log[o], Calm(id));
    assert p.verdict.Settled? && p.world.writes == s.writes + [Write(id, s.Key(i, o))];
  }

  /** Reaching the record, storing it under a new id and dying before the commit. */
  lemma StoreOnce(s: World, m: nat, i: nat, o: nat, names: iset<string>)
    returns (steps: seq<Step>, t: World, id: string)
    requires WellFormed(s) && m >= 1 && i < |s.parts| && Lined(s, m, i) && s.parts[i].position <= o < |s.parts[i].log|
    requires Nameless(s.parts[i].log[o]) && Endless(QuietIds(names))
    ensures Run(s, m, steps, t) && QuietSteps(steps, names) && GeneratesNew(s, m, steps) && Grows(s, t)
    ensures WellFormed(t) && SameLogs(s, t) && Lined(t, m, i) && t.parts[i].position <= o
    ensures |t.writes| > |s.writes| && s.writes <= t.writes && t.writes[|t.writes| - 1] == Write(id, s.Key(i, o))
    ensures id !in s.store && id in t.store
  {
    hide Lined, Apply, Run, TameRun, IsDeadLetterId, GeneratesNew, QuietSteps, WellFormed, SparesAt, Watching;
    var mood := Mood(false, QuietIds(names));
    var a, u := Reach(s, m, i, o, mood);
    TameIsQuiet(s, m, a, u, names);
    TameIsRun(s, m, a, u, mood);
    RunGrows(s, m, a, u);
    assert Offers(mood.pool, u.store.Keys);
    id :| id in mood.pool && id !in u.store.Keys;
    t := StoreAndCrash(u, m, i, id);
    var step := Crash([Delivery(i, o, [Calm(id)])]);
    RunOfOne(u, m, step);
    assert NewIds(u, step.ds);
    RunsConcatenate(s, m, a, u, [step], t);
    OneQuietCrash(i, o, id, names);
    QuietConcatenates(a, [step], names);
    steps := a + [step];
    RunGrows(s, m, steps, t);
  }

  lemma OneQuietCrash(i: nat, o: nat, id: string, names: iset<string>)
    requires id in QuietIds(names)
    ensures QuietSteps([Crash([Delivery(i, o, [Calm(id)])])], names)
  {
    hide IsDeadLetterId;
  }

  /** Storing an anonymous record, dying before the commit and storing it again:
      two entries, under two new ids, for one record. */
  lemma AnonymousRecordIsWrittenTwice(s: World, m: nat, i: nat, o: nat, names: iset<string>)
    returns (steps: seq<Step>, t: World, j: nat, k: nat)
    requires Fresh(s) && m >= 1 && i < |s.parts| && s.parts[i].committed <= o < |s.parts[i].log|
    requires Nameless(s.parts[i].log[o]) && Endless(QuietIds(names))
    ensures Run(s, m, steps, t) && QuietSteps(steps, names) && GeneratesNew(s, m, steps)
    ensures j < k < |t.writes| && t.writes[j].source == s.Key(i, o) == t.writes[k].source
    ensures t.writes[j].id != t.writes[k].id
  {
    hide QuietSteps, Run, Endless, Lined, GeneratesNew;
    FreshIsLined(s, m, i);
    var x, u, a := StoreOnce(s, m, i, o, names);
    var y, b;
    y, t, b := StoreOnce(u, m, i, o, names);
    RunsConcatenate(s, m, x, u, y, t);
    QuietConcatenates(x, y, names);
    steps, j, k := x + y, |u.writes| - 1, |t.writes| - 1;
  }

  /** With one worker, new generated ids and any crash schedule: a record still to
      be consumed is written at most once on every run if and only if it is not a
      storable envelope without an id. */
  lemma WrittenOnceIffNotNameless(s: World, m: nat, i: nat, o: nat, names: iset<string>)
    requires Fresh(s) && m >= 1 && i < |s.parts| && s.parts[i].committed <= o < |s.parts[i].log|
    requires Ledger(s, names) && InOrder(s) && LogsNamed(s, names) && NoNameIsADeadLetterId(names)
    requires Endless(QuietIds(names))
    ensures !Nameless(s.parts[i].log[o]) <==>
            forall steps, t :: Run(s, m, steps, t) && QuietSteps(steps, names) && GeneratesNew(s, m, steps) ==>
                                 WrittenOnce(t, s.Key(i, o))
  {
    hide Run, QuietSteps, WrittenOnce, Ledger, LogsNamed, GeneratesNew, Endless;
    if !Nameless(s.parts[i].log[o]) {
      forall steps, t | Run(s, m, steps, t) && QuietSteps(steps, names) ensures WrittenOnce(t, s.Key(i, o)) {
        RunGrows(s, m, steps, t);
        ReplayIsIdempotent(s, m, steps, t, names);
        NamedRecordIsWrittenOnce(t, i, o, names);
      }
    } else {
      var steps, t, j, k := AnonymousRecordIsWrittenTwice(s, m, i, o, names);
      TwoWrites(t, s.Key(i, o), j, k);
    }
  }

  lemma QuietConcatenates(a: seq<Step>, b: seq<Step>, names: iset<string>)
    requires QuietSteps(a, names) && QuietSteps(b, names)
    ensures QuietSteps(a + b, names)
  {
  }

  lemma TwoWrites(s: World, r: RecordKey, j: nat, k: nat)
    requires j < k < |s.writes| && s.writes[j].source == r == s.writes[k].source
    ensures !WrittenOnce(s, r)
  {
  }
}
