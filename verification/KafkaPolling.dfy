/** Runs built from polls of one record at a time: how far a worker gets, and what
    it leaves unhandled on the way. */
module KafkaPolling {
  import opened DeadLetterIds
  import opened RemoteEffects
  import opened EventLog
  import opened KafkaSafety
  import opened KafkaLoss

  /** The dead-letter topic, the table and the consumer answer the dead-letter path. */
  ghost predicate Reliable(o: Outcome) {
    o.publish.Applied? && o.file.Applied? && !o.seekFails
  }

  /** Nothing in the environment fails. */
  ghost predicate Perfect(o: Outcome) {
    Reliable(o) && !o.lookupFails && o.save.Applied?
  }

  /** Nothing fails; the id is generated if the envelope has none. */
  function Calm(id: string): Outcome {
    Outcome(map[], false, id, Applied, Applied, Applied, false)
  }

  /** Not an envelope, but nothing is wrong with its dead letter. */
  function Malformed(): Value {
    Value(Invalid, false, Fileable)
  }

  /** The event is in the store already, so that the record counts as a duplicate. */
  predicate Stored(s: World, v: Value) {
    v.envelope.Identified? && v.envelope.eventId in s.store
  }

  // ----------------------------------------------------------------- generated ids

  ghost predicate Offers(pool: iset<string>, taken: set<string>) {
    exists id :: id in pool && id !in taken
  }

  /** There is always another id to generate. */
  ghost predicate Endless(pool: iset<string>) {
    forall taken: set<string> :: Offers(pool, taken)
  }

  ghost predicate InBatch(ds: seq<Delivery>, k: int, j: int) {
    0 <= k < |ds| && 0 <= j < |ds[k].outcomes|
  }

  /** Every id generated in a batch is new to the store, and no two are the same. */
  ghost predicate NewIds(s: World, ds: seq<Delivery>) {
    && (forall k, j | InBatch(ds, k, j) :: ds[k].outcomes[j].generatedId !in s.store)
    && (forall k, j, k', j' | InBatch(ds, k, j) && InBatch(ds, k', j') && (k != k' || j != j') ::
          ds[k].outcomes[j].generatedId != ds[k'].outcomes[j'].generatedId)
  }

  ghost predicate GeneratesNew(s: World, m: nat, steps: seq<Step>)
    decreases |steps|
  {
    steps != [] ==>
      && Enabled(s, steps[0]) && (!steps[0].Append? ==> NewIds(s, steps[0].ds))
      && GeneratesNew(Apply(s, m, steps[0]), m, steps[1..])
  }

  lemma {:induction false} LongerThanAll(taken: set<string>, n: nat) returns (id: string)
    ensures |id| > n && forall t | t in taken :: |t| < |id|
    decreases |taken|
  {
    if taken == {} {
      id := seq(n + 1, _ => 'u');
    } else {
      var t :| t in taken;
      id := LongerThanAll(taken - {t}, n);
      if |id| <= |t| { id := t + "u"; }
      assert forall x | x in taken :: x == t || x in taken - {t};
    }
  }

  /** The ids longer than a given length. */
  ghost function LongIds(n: nat): iset<string> {
    iset id: string | |id| > n
  }

  lemma LongIdsAreEndless(n: nat)
    ensures Endless(LongIds(n))
  {
    forall taken: set<string> ensures Offers(LongIds(n), taken) {
      var id := LongerThanAll(taken, n);
      assert id in LongIds(n) && id !in taken;
    }
  }

  // ---------------------------------------------------------------- polls of one kind

  /** Polls in which nothing fails, or nothing but the lookups; generated ids come
      from the pool. */
  datatype Mood = Mood(blind: bool, pool: iset<string>)

  function Plain(blind: bool, id: string): Outcome {
    Calm(id).(lookupFails := blind)
  }

  ghost predicate PlainOutcome(s: World, out: Outcome, mood: Mood) {
    out == Plain(mood.blind, out.generatedId) && out.generatedId in mood.pool && out.generatedId !in s.store
  }

  ghost predicate TameBatch(s: World, outs: seq<Outcome>, mood: Mood) {
    && (forall j | 0 <= j < |outs| :: PlainOutcome(s, outs[j], mood))
    && (forall j, k | 0 <= j < k < |outs| :: outs[j].generatedId != outs[k].generatedId)
  }

  /** A poll of one partition, or a malformed record that arrives. */
  ghost predicate TameStep(s: World, step: Step, mood: Mood) {
    match step
    case Poll(ds, commit) => commit == Applied && |ds| == 1 && TameBatch(s, ds[0].outcomes, mood)
    case Append(_, v) => v == Malformed()
    case Crash(_) => false
  }

  ghost predicate TameRun(s: World, m: nat, steps: seq<Step>, t: World, mood: Mood)
    decreases |steps|
  {
    if steps == [] then s == t
    else
      && Enabled(s, steps[0]) && TameStep(s, steps[0], mood)
      && TameRun(Apply(s, m, steps[0]), m, steps[1..], t, mood)
  }

  lemma TameBatchIsNew(s: World, ds: seq<Delivery>, mood: Mood)
    requires |ds| == 1 && TameBatch(s, ds[0].outcomes, mood)
    ensures NewIds(s, ds)
  {
    forall k, j | InBatch(ds, k, j) ensures ds[k].outcomes[j].generatedId !in s.store {
      assert PlainOutcome(s, ds[0].outcomes[j], mood);
    }
    forall k, j, k', j' | InBatch(ds, k, j) && InBatch(ds, k', j') && (k != k' || j != j')
      ensures ds[k].outcomes[j].generatedId != ds[k'].outcomes[j'].generatedId
    {
      assert k == 0 && k' == 0;
    }
  }

  lemma {:induction false} TameIsRun(s: World, m: nat, steps: seq<Step>, t: World, mood: Mood)
    requires TameRun(s, m, steps, t, mood)
    ensures Run(s, m, steps, t) && GeneratesNew(s, m, steps)
    decreases |steps|
  {
    hide Apply, Enabled, NewIds, TameBatch;
    if steps != [] {
      if steps[0].Poll? { TameBatchIsNew(s, steps[0].ds, mood); }
      TameIsRun(Apply(s, m, steps[0]), m, steps[1..], t, mood);
    }
  }

  lemma {:induction false} TameConcatenates(
    s: World, m: nat, a: seq<Step>, t: World, b: seq<Step>, u: World, mood: Mood)
    requires TameRun(s, m, a, t, mood) && TameRun(t, m, b, u, mood)
    ensures TameRun(s, m, a + b, u, mood)
    decreases |a|
  {
    hide Apply, Enabled, TameStep;
    if a == [] {
      assert a + b == b;
    } else {
      TameConcatenates(Apply(s, m, a[0]), m, a[1..], t, b, u, mood);
      assert (a + b)[1..] == a[1..] + b;
    }
  }

  lemma TameOne(s: World, m: nat, step: Step, mood: Mood)
    requires Enabled(s, step) && TameStep(s, step, mood)
    ensures TameRun(s, m, [step], Apply(s, m, step), mood)
  {
    hide Apply, Enabled, TameStep;
    assert [step][1..] == [];
  }

  lemma {:induction false} RunsConcatenate(s: World, m: nat, a: seq<Step>, t: World, b: seq<Step>, u: World)
    requires Run(s, m, a, t) && Run(t, m, b, u)
    ensures Run(s, m, a + b, u)
    ensures GeneratesNew(s, m, a) && GeneratesNew(t, m, b) ==> GeneratesNew(s, m, a + b)
    decreases |a|
  {
    hide Apply, Enabled, NewIds;
    if a == [] {
      assert a + b == b;
    } else {
      RunsConcatenate(Apply(s, m, a[0]), m, a[1..], t, b, u);
      assert (a + b)[1..] == a[1..] + b;
    }
  }

  lemma RunOfOne(s: World, m: nat, step: Step)
    requires Enabled(s, step)
    ensures Run(s, m, [step], Apply(s, m, step))
    ensures (step.Append? || NewIds(s, step.ds)) ==> GeneratesNew(s, m, [step])
  {
    hide Apply, Enabled, NewIds;
    assert [step][1..] == [];
  }

  /** As many outcomes as needed, with ids of their own. */
  lemma {:induction false} TakeOutcomes(s: World, n: nat, mood: Mood) returns (outs: seq<Outcome>)
    requires Endless(mood.pool)
    ensures |outs| == n && TameBatch(s, outs, mood)
    decreases n
  {
    outs := [];
    if n > 0 {
      outs := TakeOutcomes(s, n - 1, mood);
      var used := set j | 0 <= j < |outs| :: outs[j].generatedId;
      assert Offers(mood.pool, s.store.Keys + used);
      var id :| id in mood.pool && id !in s.store.Keys + used;
      forall j | 0 <= j < |outs| ensures outs[j].generatedId != id { assert outs[j].generatedId in used; }
      outs := outs + [Plain(mood.blind, id)];
    }
  }

  // ------------------------------------------------------------------ watched records

  /** A record to keep an eye on, and the ids its event would be stored under. */
  datatype Watch = Watch(r: RecordKey, v: Value, ids: iset<string>)

  ghost predicate Watching(s: World, w: Watch) {
    Open(s, w.r, w.v, w.ids)
  }

  /** No poll of record o can handle the watched record. */
  ghost predicate SparesAt(s: World, i: nat, o: nat, mood: Mood, w: Watch)
    requires i < |s.parts| && o < |s.parts[i].log|
  {
    var u := s.parts[i].log[o];
    && (s.Key(i, o) == w.r ==> Hopeless(u))
    && (forall id | id in w.ids ::
          && id !in mood.pool && id != DeadLetterId(s.Key(i, o))
          && (u.storable && !mood.blind ==> u.envelope != Identified(id)))
  }

  lemma PlainSpares(s: World, i: nat, o: nat, mood: Mood, w: Watch, out: Outcome)
    requires i < |s.parts| && o < |s.parts[i].log| && SparesAt(s, i, o, mood, w)
    requires out == Plain(mood.blind, out.generatedId) && out.generatedId in mood.pool
    ensures Spares(w.ids, w.r, s.Key(i, o), s.parts[i].log[o], out)
  {
    hide DeadLetterId;
  }

  // ------------------------------------------------------------------- single steps

  ghost function PartPoll(s: World, i: nat, outs: seq<Outcome>): Step
    requires i < |s.parts|
  {
    Poll([Delivery(i, s.parts[i].position, outs)], Applied)
  }

  ghost function HeadPoll(s: World, i: nat, out: Outcome): Step
    requires i < |s.parts|
  {
    PartPoll(s, i, [out])
  }

  /** Polling one partition, if the first record is the only one to be processed. */
  lemma PartPollEffect(s: World, m: nat, i: nat, outs: seq<Outcome>)
    requires i < |s.parts| && outs != [] && s.parts[i].position + |outs| <= |s.parts[i].log| && !outs[0].seekFails
    ensures Enabled(s, PartPoll(s, i, outs))
    ensures var o := s.parts[i].position;
            var p := ProcessWithRetry(Seek(s, i, o + |outs|), m, s.Key(i, o), s.parts[i].log[o], outs[0]);
            var it := Iterate(s, m, PartPoll(s, i, outs).ds);
            match p.verdict
            case Settled => |outs| == 1 ==> it == Iteration(p.world, Commits)
            case Pending => it == Iteration(Seek(p.world, i, o), Sleeps)
            case Escaped => it == Iteration(p.world, Raises)
  {
    hide ProcessWithRetry;
    var o := s.parts[i].position;
    var ds := [Delivery(i, o, outs)];
    var s1 := Seek(s, i, o + |outs|);
    assert ds[..0] == [] && ds[1..] == [];
    assert Advance(s, ds[..0]) == s;
    assert Advance(s, ds) == s1;
    var p := ProcessWithRetry(s1, m, s.Key(i, o), s.parts[i].log[o], outs[0]);
    var q := DeliverFrom(s1, m, i, o, outs);
    if p.verdict.Settled? && |outs| == 1 {
      assert outs[1..] == [];
      assert DeliverFrom(p.world, m, i, o + 1, []) == Pass(p.world, Drained);
      assert DrainBatches(p.world, m, [], true, false) == Iteration(p.world, Commits);
    } else if p.verdict.Pending? {
      assert DrainBatches(q.world, m, [], false, true) == Iteration(q.world, Sleeps);
    }
  }

  lemma RetryCounts(s: World, m: nat, r: RecordKey, v: Value, o: Outcome)
    ensures var p := ProcessWithRetry(s, m, r, v, o);
            && (forall q :: q != r ==> AttemptsOf(p.world, q) == AttemptsOf(s, q))
            && (p.verdict.Settled? ==> AttemptsOf(p.world, r) == 0)
            && (p.verdict.Pending? ==> AttemptsOf(p.world, r) == AttemptsOf(s, r) + 1 < m)
  {
    hide DeadLetterId, ProcessRecord, DeadLetter;
  }

  /** When a call cannot escape, and when it succeeds at once. */
  lemma ReliableVerdict(s: World, m: nat, r: RecordKey, v: Value, out: Outcome)
    requires Reliable(out)
    ensures var p := ProcessWithRetry(s, m, r, v, out);
            && (p.verdict.Escaped? ==> !v.letter.Fileable?)
            && (Perfect(out) && Processable(v) ==> p.verdict.Settled?)
            && (Perfect(out) && v.envelope.Identified? && v.envelope.eventId in s.store ==> p.verdict.Settled?)
  {
    hide DeadLetterId;
  }

  /** The head record has attempts left and nothing behind it was tried yet. */
  ghost predicate Lined(s: World, m: nat, i: nat)
    requires i < |s.parts|
  {
    AttemptsAt(s, i, s.parts[i].position) < m && forall o: nat | o > s.parts[i].position :: AttemptsAt(s, i, o) == 0
  }

  lemma FreshIsLined(s: World, m: nat, i: nat)
    requires Fresh(s) && m >= 1 && i < |s.parts|
    ensures Lined(s, m, i)
  {
  }

  lemma LinedAfter(s: World, t: World, m: nat, i: nat)
    requires i < |s.parts| == |t.parts| && Lined(s, m, i)
    requires t.parts[i].topic == s.parts[i].topic && t.parts[i].number == s.parts[i].number
    requires forall q :: q != s.Key(i, s.parts[i].position) ==> AttemptsOf(t, q) == AttemptsOf(s, q)
    requires t.parts[i].position > s.parts[i].position
             || (t.parts[i].position == s.parts[i].position && AttemptsAt(t, i, t.parts[i].position) < m)
    ensures Lined(t, m, i)
  {
    forall o: nat | o > s.parts[i].position ensures AttemptsAt(t, i, o) == 0 {
      assert AttemptsAt(s, i, o) == 0;
    }
  }

  ghost predicate SameLogs(s: World, t: World) {
    && |t.parts| == |s.parts|
    && (forall i | 0 <= i < |s.parts| ::
          t.parts[i].log == s.parts[i].log && t.parts[i].KeyAt(0) == s.parts[i].KeyAt(0))
  }

  /** A poll in which only the head record is processed: the consumer is past
      everything polled, or back at the head with one more attempt on its count. */
  lemma PollPart(s: World, m: nat, i: nat, outs: seq<Outcome>)
    requires WellFormed(s) && i < |s.parts| && Lined(s, m, i)
    requires outs != [] && s.parts[i].position + |outs| <= |s.parts[i].log| && !outs[0].seekFails
    requires var o := s.parts[i].position;
             |outs| == 1
             || !ProcessWithRetry(Seek(s, i, o + |outs|), m, s.Key(i, o), s.parts[i].log[o], outs[0]).verdict.Settled?
    ensures var o := s.parts[i].position;
            var p := ProcessWithRetry(Seek(s, i, o + |outs|), m, s.Key(i, o), s.parts[i].log[o], outs[0]);
            && Enabled(s, PartPoll(s, i, outs))
            && var t := Apply(s, m, PartPoll(s, i, outs));
               && WellFormed(t) && SameLogs(s, t) && Lined(t, m, i)
               && t.parts[i].position == (if p.verdict.Pending? then o else o + |outs|)
               && (p.verdict.Settled? ==> t.parts[i].committed == o + 1)
               && (p.verdict.Pending? ==> AttemptsAt(t, i, o) == AttemptsAt(s, i, o) + 1)
               && t.filings == p.world.filings && t.store == p.world.store && t.writes == p.world.writes
  {
    hide ProcessWithRetry, Iterate, Grows, Backed;
    var o := s.parts[i].position;
    var s1, r, v := Seek(s, i, o + |outs|), s.Key(i, o), s.parts[i].log[o];
    var p := ProcessWithRetry(s1, m, r, v, outs[0]);
    PartPollEffect(s, m, i, outs);
    RetryCounts(s1, m, r, v, outs[0]);
    StepShape(s, m, PartPoll(s, i, outs));
    var t := Apply(s, m, PartPoll(s, i, outs));
    assert forall q :: AttemptsOf(s1, q) == AttemptsOf(s, q) && AttemptsOf(t, q) == AttemptsOf(p.world, q);
    LinedAfter(s, t, m, i);
  }

  /** Polling the head record leaves a watched record open if its call does. */
  lemma HeadPollSpares(s: World, m: nat, i: nat, out: Outcome, mood: Mood, w: Watch)
    requires i < |s.parts| && s.parts[i].position < |s.parts[i].log| && Watching(s, w)
    requires SparesAt(s, i, s.parts[i].position, mood, w) && PlainOutcome(s, out, mood)
    ensures var o := s.parts[i].position;
            var p := ProcessWithRetry(Seek(s, i, o + 1), m, s.Key(i, o), s.parts[i].log[o], out);
            Watching(p.world, w)
  {
    hide ProcessWithRetry, Open, SparesAt, Spares;
    var o := s.parts[i].position;
    SameStoreSameOpen(s, Seek(s, i, o + 1), w.r, w.v, w.ids);
    PlainSpares(s, i, o, mood, w, out);
    CallSpares(Seek(s, i, o + 1), m, s.Key(i, o), s.parts[i].log[o], out, w.r, w.v, w.ids);
  }

  // --------------------------------------------------------------------------- runs

  /** One poll of the head record. */
  lemma HeadPollIsTame(s: World, m: nat, i: nat, mood: Mood) returns (out: Outcome, u: World)
    requires WellFormed(s) && i < |s.parts| && s.parts[i].position < |s.parts[i].log| && Lined(s, m, i)
    requires Endless(mood.pool)
    ensures PlainOutcome(s, out, mood) && Enabled(s, HeadPoll(s, i, out)) && u == Apply(s, m, HeadPoll(s, i, out))
    ensures TameRun(s, m, [HeadPoll(s, i, out)], u, mood)
    ensures WellFormed(u) && SameLogs(s, u) && Lined(u, m, i)
    ensures var o := s.parts[i].position;
            var v := s.parts[i].log[o];
            && (u.parts[i].position == o ==> AttemptsAt(u, i, o) == AttemptsAt(s, i, o) + 1)
            && (u.parts[i].position != o ==> u.parts[i].position == o + 1)
            && (u.parts[i].position != o && (v.letter.Fileable? || (!mood.blind && Processable(v))) ==>
                  u.parts[i].committed == o + 1)
    ensures forall w | Watching(s, w) && SparesAt(s, i, s.parts[i].position, mood, w) :: Watching(u, w)
  {
    hide ProcessWithRetry, Apply, WellFormed, Open, SparesAt, Processable, TameRun;
    var o := s.parts[i].position;
    var outs := TakeOutcomes(s, 1, mood);
    out := outs[0];
    assert outs == [out] && PlainOutcome(s, outs[0], mood);
    var step := HeadPoll(s, i, out);
    PollPart(s, m, i, [out]);
    u := Apply(s, m, step);
    TameOne(s, m, step, mood);
    var p := ProcessWithRetry(Seek(s, i, o + 1), m, s.Key(i, o), s.parts[i].log[o], out);
    ReliableVerdict(Seek(s, i, o + 1), m, s.Key(i, o), s.parts[i].log[o], out);
    forall w | Watching(s, w) && SparesAt(s, i, o, mood, w) ensures Watching(u, w) {
      HeadPollSpares(s, m, i, out, mood, w);
      SameStoreSameOpen(p.world, u, w.r, w.v, w.ids);
    }
  }

  ghost predicate SparesRange(s: World, i: nat, lo: nat, hi: nat, mood: Mood, w: Watch)
    requires i < |s.parts|
  {
    hi <= |s.parts[i].log| && forall q | lo <= q < hi :: SparesAt(s, i, q, mood, w)
  }

  lemma SparesWithSameLog(s: World, t: World, i: nat, lo: nat, hi: nat, mood: Mood, w: Watch)
    requires i < |s.parts| && SameLogs(s, t) && SparesRange(s, i, lo, hi, mood, w)
    ensures SparesRange(t, i, lo, hi, mood, w)
  {
    hide DeadLetterId;
    forall q | lo <= q < hi ensures SparesAt(t, i, q, mood, w) {
      assert SparesAt(s, i, q, mood, w);
      assert t.Key(i, q) == s.Key(i, q) && t.parts[i].log[q] == s.parts[i].log[q];
    }
  }

  /** Polling the head record until the consumer is past it. */
  lemma {:induction false} PassHead(s: World, m: nat, i: nat, mood: Mood) returns (steps: seq<Step>, t: World)
    requires WellFormed(s) && i < |s.parts| && s.parts[i].position < |s.parts[i].log| && Lined(s, m, i)
    requires Endless(mood.pool)
    ensures TameRun(s, m, steps, t, mood)
    ensures WellFormed(t) && SameLogs(s, t) && Lined(t, m, i) && t.parts[i].position == s.parts[i].position + 1
    ensures var v := s.parts[i].log[s.parts[i].position];
            v.letter.Fileable? || (!mood.blind && Processable(v)) ==> t.parts[i].committed == t.parts[i].position
    ensures forall w | Watching(s, w) && SparesAt(s, i, s.parts[i].position, mood, w) :: Watching(t, w)
    decreases m - AttemptsAt(s, i, s.parts[i].position)
  {
    hide Apply, WellFormed, Watching, SparesAt, Processable, TameRun, Endless, PlainOutcome;
    var o := s.parts[i].position;
    var out, u := HeadPollIsTame(s, m, i, mood);
    var step := HeadPoll(s, i, out);
    if u.parts[i].position == o {
      var rest;
      rest, t := PassHead(u, m, i, mood);
      TameConcatenates(s, m, [step], u, rest, t, mood);
      steps := [step] + rest;
      forall w | Watching(s, w) && SparesAt(s, i, o, mood, w) ensures Watching(t, w) {
        SparesOneWithSameLog(s, u, i, o, mood, w);
      }
    } else {
      steps, t := [step], u;
    }
  }

  lemma SparesOneWithSameLog(s: World, t: World, i: nat, o: nat, mood: Mood, w: Watch)
    requires i < |s.parts| && SameLogs(s, t) && o < |s.parts[i].log| && SparesAt(s, i, o, mood, w)
    ensures SparesAt(t, i, o, mood, w)
  {
    assert SparesRange(s, i, o, o + 1, mood, w);
    SparesWithSameLog(s, t, i, o, o + 1, mood, w);
  }

  /** Polls that bring the consumer to offset o of partition i. */
  lemma {:induction false} Reach(s: World, m: nat, i: nat, o: nat, mood: Mood) returns (steps: seq<Step>, t: World)
    requires WellFormed(s) && i < |s.parts| && Lined(s, m, i) && s.parts[i].position <= o <= |s.parts[i].log|
    requires Endless(mood.pool)
    ensures TameRun(s, m, steps, t, mood)
    ensures WellFormed(t) && SameLogs(s, t) && Lined(t, m, i) && t.parts[i].position == o
    ensures forall w | Watching(s, w) && SparesRange(s, i, s.parts[i].position, o, mood, w) :: Watching(t, w)
    decreases o - s.parts[i].position
  {
    hide Lined, WellFormed, Watching, SparesAt, Processable, Endless;
    if s.parts[i].position == o {
      steps, t := [], s;
    } else {
      var a, u := PassHead(s, m, i, mood);
      var b;
      b, t := Reach(u, m, i, o, mood);
      TameConcatenates(s, m, a, u, b, t, mood);
      steps := a + b;
      forall w | Watching(s, w) && SparesRange(s, i, s.parts[i].position, o, mood, w) ensures Watching(t, w) {
        assert SparesAt(s, i, s.parts[i].position, mood, w);
        SparesWithSameLog(s, u, i, s.parts[i].position, o, mood, w);
      }
    }
  }

  lemma PositionInLog(s: World, i: nat)
    requires WellFormed(s) && i < |s.parts|
    ensures s.parts[i].committed <= s.parts[i].position <= |s.parts[i].log|
  {
  }

  /** A record arrives. */
  lemma Arrival(s: World, m: nat, i: nat, v: Value) returns (t: World)
    requires WellFormed(s) && i < |s.parts| && Lined(s, m, i)
    ensures Enabled(s, Append(i, v)) && t == Apply(s, m, Append(i, v))
    ensures WellFormed(t) && Lined(t, m, i) && |t.parts| == |s.parts|
    ensures t == s.(parts := s.parts[i := s.parts[i].(log := s.parts[i].log + [v])])
  {
    hide Grows, Backed;
    t := Apply(s, m, Append(i, v));
    forall q: nat | q > s.parts[i].position ensures AttemptsAt(t, i, q) == 0 {
      assert AttemptsAt(s, i, q) == 0;
    }
    StepShape(s, m, Append(i, v));
  }

  /** The watched record is not at offset o, and its ids are none that a dead letter
      or a generated id could bring. */
  ghost predicate Apart(s: World, i: nat, o: nat, mood: Mood, w: Watch)
    requires i < |s.parts|
  {
    s.Key(i, o) != w.r && forall id | id in w.ids :: !IsDeadLetterId(id) && id !in mood.pool
  }

  lemma ApartWithSameLog(s: World, t: World, i: nat, o: nat, mood: Mood, w: Watch)
    requires i < |s.parts| && SameLogs(s, t) && Apart(s, i, o, mood, w)
    ensures Apart(t, i, o, mood, w)
  {
  }

  lemma ArrivalSpares(s: World, t: World, i: nat, mood: Mood, w: Watch)
    requires i < |s.parts| && Apart(s, i, |s.parts[i].log|, mood, w) && Watching(s, w)
    requires t == s.(parts := s.parts[i := s.parts[i].(log := s.parts[i].log + [Malformed()])])
    ensures Watching(t, w) && SparesAt(t, i, |s.parts[i].log|, mood, w)
  {
    hide DeadLetterId;
    SameStoreSameOpen(s, t, w.r, w.v, w.ids);
    assert IsDeadLetterId(DeadLetterId(t.Key(i, |s.parts[i].log|)));
  }

  /** Going on polling, the worker commits past everything behind it, whatever it
      left there: the next record of the partition that is handled does it. */
  lemma {:induction false} CommitPast(s: World, m: nat, i: nat, mood: Mood, w: Watch)
    returns (steps: seq<Step>, t: World)
    requires WellFormed(s) && i < |s.parts| && Lined(s, m, i) && Endless(mood.pool)
    requires Watching(s, w) && SparesRange(s, i, s.parts[i].position, |s.parts[i].log|, mood, w)
    requires Apart(s, i, |s.parts[i].log|, mood, w)
    ensures TameRun(s, m, steps, t, mood) && Watching(t, w) && WellFormed(t)
    ensures SameShape(s, t) && t.parts[i].committed > s.parts[i].position
    decreases |s.parts[i].log| - s.parts[i].position
  {
    hide TameRun, Apply, WellFormed, Lined, Watching, SparesAt, Apart, Processable, Endless;
    PositionInLog(s, i);
    if s.parts[i].position == |s.parts[i].log| {
      var step := Append(i, Malformed());
      var u := Arrival(s, m, i, Malformed());
      ArrivalSpares(s, u, i, mood, w);
      TameOne(s, m, step, mood);
      var rest;
      rest, t := PassHead(u, m, i, mood);
      TameConcatenates(s, m, [step], u, rest, t, mood);
      steps := [step] + rest;
    } else {
      var a, u := PassHead(s, m, i, mood);
      assert SparesAt(s, i, s.parts[i].position, mood, w);
      if u.parts[i].committed == u.parts[i].position {
        steps, t := a, u;
      } else {
        SparesWithSameLog(s, u, i, s.parts[i].position, |s.parts[i].log|, mood, w);
        ApartWithSameLog(s, u, i, |s.parts[i].log|, mood, w);
        var b;
        b, t := CommitPast(u, m, i, mood, w);
        TameConcatenates(s, m, a, u, b, t, mood);
        steps := a + b;
      }
    }
  }

  // ------------------------------------------------------------------ leaving a tail

  /** In this mood no attempt on the value succeeds, and its dead letter fails. */
  ghost predicate Stuck(s: World, v: Value, mood: Mood) {
    !v.letter.Fileable? && (mood.blind || (!Processable(v) && !Stored(s, v)))
  }

  lemma StuckAttempt(s: World, r: RecordKey, v: Value, out: Outcome, mood: Mood)
    requires Stuck(s, v, mood) && out == Plain(mood.blind, out.generatedId)
    ensures ProcessRecord(s, r, v, out) == Attempt(s, false)
  {
    assert s.store + out.foreign == s.store;
    assert s.(store := s.store + out.foreign) == s;
  }

  lemma StuckLetter(s: World, r: RecordKey, v: Value, n: nat, out: Outcome)
    requires !v.letter.Fileable?
    ensures var d := DeadLetter(s, r, v, n, out);
            !d.ok && d.world == s.(letters := d.world.letters)
  {
    hide DeadLetterId;
  }

  lemma StuckCall(s: World, m: nat, r: RecordKey, v: Value, out: Outcome, mood: Mood)
    requires Stuck(s, v, mood) && out == Plain(mood.blind, out.generatedId)
    ensures var p := ProcessWithRetry(s, m, r, v, out);
            && !p.verdict.Settled?
            && p.world.filings == s.filings && p.world.store == s.store && p.world.writes == s.writes
  {
    hide ProcessRecord, DeadLetter;
    StuckAttempt(s, r, v, out, mood);
    var n := AttemptsOf(s, r) + 1;
    StuckLetter(s.(attempts := s.attempts[r := n], failed := s.failed + multiset{r}), r, v, n, out);
  }

  /** Polling a whole partition from a stuck record ends with the consumer past all of
      it, and nothing stored or filed. */
  lemma {:induction false} AbandonTail(s: World, m: nat, i: nat, mood: Mood) returns (steps: seq<Step>, t: World)
    requires WellFormed(s) && i < |s.parts| && s.parts[i].position < |s.parts[i].log| && Lined(s, m, i)
    requires Stuck(s, s.parts[i].log[s.parts[i].position], mood) && Endless(mood.pool)
    ensures TameRun(s, m, steps, t, mood)
    ensures WellFormed(t) && SameLogs(s, t) && Lined(t, m, i) && t.parts[i].position == |s.parts[i].log|
    ensures t.filings == s.filings && t.store == s.store && t.writes == s.writes
    decreases m - AttemptsAt(s, i, s.parts[i].position)
  {
    hide ProcessWithRetry, Apply, TameRun, WellFormed, Processable, Endless;
    var o := s.parts[i].position;
    var outs := TakeOutcomes(s, |s.parts[i].log| - o, mood);
    var step := PartPoll(s, i, outs);
    assert PlainOutcome(s, outs[0], mood);
    StuckCall(Seek(s, i, o + |outs|), m, s.Key(i, o), s.parts[i].log[o], outs[0], mood);
    PollPart(s, m, i, outs);
    TameOne(s, m, step, mood);
    var u := Apply(s, m, step);
    if u.parts[i].position == o {
      var rest;
      rest, t := AbandonTail(u, m, i, mood);
      TameConcatenates(s, m, [step], u, rest, t, mood);
      steps := [step] + rest;
    } else {
      steps, t := [step], u;
    }
  }
}
