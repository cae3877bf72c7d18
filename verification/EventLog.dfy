/** The state of the Kafka event worker together with the broker, the event
    store and the dead-letter topic, and what each step of the worker does to it
    (services/event_worker/app/main.py, `KafkaEventWorker`). */
module EventLog {
  import opened DeadLetterIds
  import opened RemoteEffects

  /** What validation makes of a record: nothing (or an id that cannot be a key of
      the table), an envelope without `event_id`, for which every parse generates a
      new one, or one with its own id. */
  datatype Envelope = Invalid | Anonymous | Identified(eventId: string)

  /** What becomes of a record's dead letter for reasons that lie in the record:
      - Fileable: it can be sent, and its entry can be stored;
      - Unfileable: it can be sent, but the table refuses the entry, which holds
        the original value (a number beyond the table's range, an item too large);
      - Unsendable: it is refused before it is sent, because the record's
        `event_id` is neither a string nor null and does not fit `causation_id`,
        or because the producer cannot encode the message. */
  datatype LetterFit = Fileable | Unfileable | Unsendable

  /** What a record carries, as far as the worker's control flow can see.
      `storable`: the table accepts the event's own entry. */
  datatype Value = Value(envelope: Envelope, storable: bool, letter: LetterFit)

  /** Validation and the table accept the event. */
  predicate Processable(v: Value) {
    !v.envelope.Invalid? && v.storable
  }

  datatype EntryResult = Processed | DeadLettered
  datatype Entry = Entry(result: EntryResult, source: RecordKey, receiveCount: nat)
  datatype Letter = Letter(key: string, source: RecordKey, original: Value, attempts: nat)
  datatype Write = Write(id: string, source: RecordKey)

  datatype Partition = Partition(topic: string, number: nat, log: seq<Value>, position: nat, committed: nat) {
    function KeyAt(offset: nat): RecordKey {
      RecordKey(topic, number, offset)
    }
  }

  /** `parts` is broker and consumer state, `attempts` the worker's memory,
      `store` the processed-event table and `letters` the dead-letter topic.
      The other fields are history: every event entry the worker wrote, the records
      whose dead-letter entry it wrote, the processing failures of the current
      process, and how many letters preceded it. */
  datatype World = World(
    parts: seq<Partition>,
    attempts: map<RecordKey, nat>,
    store: map<string, Entry>,
    letters: seq<Letter>,
    writes: seq<Write>,
    filings: set<RecordKey>,
    failed: multiset<RecordKey>,
    letterBase: nat)
  {
    function Key(i: nat, offset: nat): RecordKey
      requires i < |parts|
    {
      parts[i].KeyAt(offset)
    }
  }

  /** What the environment does while one record is being processed: other
      writers' entries that land first, a failing lookup, the id generated for an
      anonymous envelope, the fate of each write, and of the seek. */
  datatype Outcome = Outcome(
    foreign: map<string, Entry>,
    lookupFails: bool,
    generatedId: string,
    save: Effect,
    publish: Effect,
    file: Effect,
    seekFails: bool)

  /** One partition's share of a poll: consecutive records from `offset`. */
  datatype Delivery = Delivery(index: nat, offset: nat, outcomes: seq<Outcome>)

  // ---------------------------------------------------------------- one record

  datatype Attempt = Attempt(world: World, ok: bool)

  function SaveEvent(s: World, id: string, r: RecordKey, v: Value, effect: Effect): (a: Attempt)
    ensures a.world == s.(store := a.world.store, writes := a.world.writes)
  {
    if !v.storable || effect.Refused? then Attempt(s, false)
    else
      var s1 := s.(store := s.store[id := Entry(Processed, r, 1)], writes := s.writes + [Write(id, r)]);
      Attempt(s1, effect.Applied?)
  }

  /** `process_record`. A generated id is new, so its lookup finds nothing. */
  function ProcessRecord(s: World, r: RecordKey, v: Value, o: Outcome): (a: Attempt)
    ensures a.world == s.(store := a.world.store, writes := a.world.writes)
  {
    var s0 := s.(store := s.store + o.foreign);
    match v.envelope
    case Invalid => Attempt(s0, false)
    case Anonymous =>
      if o.lookupFails then Attempt(s0, false) else SaveEvent(s0, o.generatedId, r, v, o.save)
    case Identified(id) =>
      if o.lookupFails then Attempt(s0, false)
      else if id in s0.store then Attempt(s0, true)
      else SaveEvent(s0, id, r, v, o.save)
  }

  /** `_dead_letter`: publish first, then file the entry. */
  function DeadLetter(s: World, r: RecordKey, v: Value, attempts: nat, o: Outcome): (a: Attempt)
    ensures a.world == s.(store := a.world.store, letters := a.world.letters, filings := a.world.filings)
  {
    if v.letter.Unsendable? || o.publish.Refused? then Attempt(s, false)
    else
      var s1 := s.(letters := s.letters + [Letter(DeadLetterId(r), r, v, attempts)]);
      if o.publish.LostReply? || v.letter.Unfileable? || o.file.Refused? then Attempt(s1, false)
      else
        var entry := Entry(DeadLettered, r, attempts);
        var s2 := s1.(store := s1.store[DeadLetterId(r) := entry], filings := s1.filings + {r});
        Attempt(s2, o.file.Applied?)
  }

  datatype Verdict = Settled | Pending | Escaped
  datatype Ruling = Ruling(world: World, verdict: Verdict)

  function Forget(s: World, r: RecordKey): World {
    s.(attempts := s.attempts - {r})
  }

  function AttemptsOf(s: World, r: RecordKey): nat {
    if r in s.attempts then s.attempts[r] else 0
  }

  function AttemptsAt(s: World, i: nat, o: nat): nat
    requires i < |s.parts|
  {
    AttemptsOf(s, s.Key(i, o))
  }

  /** `process_record_with_retry`: true is Settled, false is Pending, an
      exception out of the dead-letter path is Escaped. */
  function ProcessWithRetry(s: World, m: nat, r: RecordKey, v: Value, o: Outcome): (p: Ruling)
    ensures p.world.parts == s.parts
    ensures p.world.letterBase == s.letterBase
  {
    var a := ProcessRecord(s, r, v, o);
    if a.ok then Ruling(Forget(a.world, r), Settled)
    else
      var n := AttemptsOf(s, r) + 1;
      var s1 := a.world.(attempts := a.world.attempts[r := n], failed := a.world.failed + multiset{r});
      if n < m then Ruling(s1, Pending)
      else
        var d := DeadLetter(s1, r, v, n, o);
        if d.ok then Ruling(Forget(d.world, r), Settled) else Ruling(d.world, Escaped)
  }

  // ------------------------------------------------------------- one iteration

  function Seek(s: World, i: nat, offset: nat): World
    requires i < |s.parts|
  {
    s.(parts := s.parts[i := s.parts[i].(position := offset)])
  }

  datatype PassEnd = Drained | Rewound | Aborted
  datatype Pass = Pass(world: World, end: PassEnd)

  /** The loop over one partition's records. */
  function DeliverFrom(s: World, m: nat, i: nat, offset: nat, outcomes: seq<Outcome>): (p: Pass)
    requires i < |s.parts| && offset + |outcomes| <= |s.parts[i].log|
    ensures p.end.Drained? ==> p.world.parts == s.parts
    ensures p.end.Aborted? ==> p.world.parts == s.parts
    ensures p.end.Rewound? ==> |p.world.parts| == |s.parts| && offset <= p.world.parts[i].position < offset + |outcomes|
                               && p.world.parts == Seek(s, i, p.world.parts[i].position).parts
    decreases |outcomes|
  {
    if outcomes == [] then Pass(s, Drained)
    else
      var p := ProcessWithRetry(s, m, s.Key(i, offset), s.parts[i].log[offset], outcomes[0]);
      match p.verdict
      case Settled => DeliverFrom(p.world, m, i, offset + 1, outcomes[1..])
      case Pending => if outcomes[0].seekFails then Pass(p.world, Aborted) else Pass(Seek(p.world, i, offset), Rewound)
      case Escaped => Pass(p.world, Aborted)
  }

  datatype IterationEnd = Commits | Sleeps | Idles | Raises
  datatype Iteration = Iteration(world: World, end: IterationEnd)

  /** Deliveries of distinct partitions, all inside their logs. */
  ghost predicate InRange(s: World, ds: seq<Delivery>) {
    && (forall k | 0 <= k < |ds| ::
          ds[k].index < |s.parts| && ds[k].offset + |ds[k].outcomes| <= |s.parts[ds[k].index].log|)
    && (forall j, k | 0 <= j < k < |ds| :: ds[j].index != ds[k].index)
  }

  /** What `poll` may return: each delivery starts at its partition's position. */
  ghost predicate Pollable(s: World, ds: seq<Delivery>) {
    && InRange(s, ds)
    && (forall k | 0 <= k < |ds| :: ds[k].offset == s.parts[ds[k].index].position)
  }

  /** `poll` moves each position past everything it returned. */
  function Advance(s: World, ds: seq<Delivery>): (s': World)
    requires InRange(s, ds)
    ensures s' == s.(parts := s'.parts) && |s'.parts| == |s.parts|
    ensures forall i | 0 <= i < |s.parts| :: s'.parts[i] == s.parts[i].(position := s'.parts[i].position)
    decreases |ds|
  {
    if ds == [] then s
    else
      var rest := ds[..|ds| - 1];
      var s1 := Advance(s, rest);
      var d := ds[|ds| - 1];
      assert forall k | 0 <= k < |rest| :: ds[k] == rest[k];
      Seek(s1, d.index, d.offset + |d.outcomes|)
  }

  /** One more delivery in a batch. */
  lemma AdvanceSnoc(s: World, ds: seq<Delivery>)
    requires InRange(s, ds) && ds != []
    ensures var rest, d := ds[..|ds| - 1], ds[|ds| - 1];
            && InRange(s, rest) && d.index < |s.parts|
            && Advance(s, ds) == Seek(Advance(s, rest), d.index, d.offset + |d.outcomes|)
  {
    var rest := ds[..|ds| - 1];
    assert forall k | 0 <= k < |rest| :: ds[k] == rest[k];
  }

  lemma {:induction false} AdvanceReachesAt(s: World, ds: seq<Delivery>, k: nat)
    requires InRange(s, ds) && k < |ds|
    ensures Advance(s, ds).parts[ds[k].index].position == ds[k].offset + |ds[k].outcomes|
    decreases |ds|
  {
    hide Advance;
    AdvanceSnoc(s, ds);
    if k < |ds| - 1 {
      assert ds[..|ds| - 1][k] == ds[k];
      AdvanceReachesAt(s, ds[..|ds| - 1], k);
    }
  }

  lemma {:induction false} AdvanceLeaves(s: World, ds: seq<Delivery>, i: nat)
    requires InRange(s, ds) && i < |s.parts| && forall k | 0 <= k < |ds| :: ds[k].index != i
    ensures Advance(s, ds).parts[i] == s.parts[i]
    decreases |ds|
  {
    if ds != [] {
      var rest := ds[..|ds| - 1];
      AdvanceSnoc(s, ds);
      assert forall k | 0 <= k < |rest| :: ds[k] == rest[k];
      AdvanceLeaves(s, rest, i);
    }
  }

  /** Where the positions are after a poll. */
  lemma AdvanceReaches(s: World, ds: seq<Delivery>)
    requires InRange(s, ds)
    ensures forall k | 0 <= k < |ds| :: Advance(s, ds).parts[ds[k].index].position == ds[k].offset + |ds[k].outcomes|
    ensures forall i | 0 <= i < |s.parts| && (forall k | 0 <= k < |ds| :: ds[k].index != i) ::
              Advance(s, ds).parts[i] == s.parts[i]
  {
    hide Advance;
    forall k | 0 <= k < |ds|
      ensures Advance(s, ds).parts[ds[k].index].position == ds[k].offset + |ds[k].outcomes|
    {
      AdvanceReachesAt(s, ds, k);
    }
    forall i | 0 <= i < |s.parts| && (forall k | 0 <= k < |ds| :: ds[k].index != i)
      ensures Advance(s, ds).parts[i] == s.parts[i]
    {
      AdvanceLeaves(s, ds, i);
    }
  }

  /** The loop over the partitions of a batch, with its two flags. */
  function DrainBatches(s: World, m: nat, ds: seq<Delivery>, any: bool, failed: bool): Iteration
    requires InRange(s, ds)
    decreases |ds|
  {
    if ds == [] then
      Iteration(s, if any && !failed then Commits else if failed then Sleeps else Idles)
    else
      var p := DeliverFrom(s, m, ds[0].index, ds[0].offset, ds[0].outcomes);
      match p.end
      case Drained => DrainBatches(p.world, m, ds[1..], any || ds[0].outcomes != [], failed)
      case Rewound => DrainBatches(p.world, m, ds[1..], any, true)
      case Aborted => Iteration(p.world, Raises)
  }

  /** `commit`: every partition's position at once. */
  function Commit(s: World): World {
    s.(parts := seq(|s.parts|, i requires 0 <= i < |s.parts| => s.parts[i].(committed := s.parts[i].position)))
  }

  function Iterate(s: World, m: nat, ds: seq<Delivery>): Iteration
    requires InRange(s, ds)
  {
    DrainBatches(Advance(s, ds), m, ds, false, false)
  }

  /** One turn of the polling loop. */
  function PollOnce(s: World, m: nat, ds: seq<Delivery>, commit: Effect): World
    requires InRange(s, ds)
  {
    var it := Iterate(s, m, ds);
    if it.end.Commits? && !commit.Refused? then Commit(it.world) else it.world
  }

  // ----------------------------------------------------------------------- runs

  /** A new process: consumer positions return to the committed offsets and the
      retry counters are gone. */
  function Restart(s: World): World {
    World(seq(|s.parts|, i requires 0 <= i < |s.parts| => s.parts[i].(position := s.parts[i].committed)),
          map[], s.store, s.letters, s.writes, s.filings, multiset{}, |s.letters|)
  }

  /** Poll: a full turn. Crash: the process dies after handling the given
      deliveries (the last one possibly cut short) and a new one starts. Append:
      a producer adds a record. */
  datatype Step = Poll(ds: seq<Delivery>, commit: Effect) | Crash(ds: seq<Delivery>) | Append(index: nat, value: Value)

  ghost predicate Enabled(s: World, step: Step) {
    match step
    case Poll(ds, _) => Pollable(s, ds)
    case Crash(ds) => Pollable(s, ds)
    case Append(i, _) => i < |s.parts|
  }

  ghost function Apply(s: World, m: nat, step: Step): World
    requires Enabled(s, step)
  {
    match step
    case Poll(ds, commit) => PollOnce(s, m, ds, commit)
    case Crash(ds) => Restart(Iterate(s, m, ds).world)
    case Append(i, v) => s.(parts := s.parts[i := s.parts[i].(log := s.parts[i].log + [v])])
  }

  /** `t` is reached from `s` by the steps, in order. */
  ghost predicate Run(s: World, m: nat, steps: seq<Step>, t: World)
    decreases |steps|
  {
    if steps == [] then s == t
    else Enabled(s, steps[0]) && Run(Apply(s, m, steps[0]), m, steps[1..], t)
  }

  /** A dead letter or a seek raised during this turn. */
  ghost predicate Escapes(s: World, m: nat, step: Step)
    requires Enabled(s, step)
  {
    step.Poll? && Iterate(s, m, step.ds).end.Raises?
  }

  ghost predicate NoEscape(s: World, m: nat, steps: seq<Step>)
    decreases |steps|
  {
    steps != [] ==>
      && Enabled(s, steps[0])
      && !Escapes(s, m, steps[0])
      && NoEscape(Apply(s, m, steps[0]), m, steps[1..])
  }

  // ----------------------------------------------------- states and obligations

  ghost predicate DistinctParts(s: World) {
    forall i, j | 0 <= i < j < |s.parts| ::
      s.parts[i].topic != s.parts[j].topic || s.parts[i].number != s.parts[j].number
  }

  ghost predicate WellFormed(s: World) {
    && (forall i | 0 <= i < |s.parts| :: s.parts[i].committed <= s.parts[i].position <= |s.parts[i].log|)
    && DistinctParts(s)
    && s.letterBase <= |s.letters|
    && (forall r | r in s.filings :: Backed(s, r))
    && (forall k | 0 <= k < |s.writes| :: s.writes[k].id in s.store)
  }

  ghost predicate HasLetter(s: World, r: RecordKey) {
    exists l :: l in s.letters && l.source == r
  }

  /** The letter went out and its key is in the store. */
  ghost predicate Backed(s: World, r: RecordKey) {
    HasLetter(s, r) && DeadLetterId(r) in s.store
  }

  /** A worker that starts on existing logs, with nothing in memory. */
  ghost predicate Fresh(s: World) {
    && WellFormed(s)
    && (forall i | 0 <= i < |s.parts| :: s.parts[i].position == s.parts[i].committed)
    && s.attempts == map[] && s.failed == multiset{} && s.letterBase == |s.letters|
  }

  /** The record was sent to the dead-letter topic and its entry was put on file. */
  ghost predicate FiledAsDeadLetter(s: World, r: RecordKey) {
    r in s.filings && Backed(s, r)
  }

  /** The record's event is stored, or it was dead-lettered and that is on file. */
  ghost predicate Handled(s: World, r: RecordKey, v: Value) {
    || FiledAsDeadLetter(s, r)
    || match v.envelope
       case Invalid => false
       case Anonymous => exists w :: w in s.writes && w.source == r && w.id in s.store
       case Identified(id) => id in s.store
  }

  ghost predicate HandledBetween(s: World, i: nat, lo: nat, hi: nat)
    requires i < |s.parts|
  {
    hi <= |s.parts[i].log| && forall o | lo <= o < hi :: Handled(s, s.Key(i, o), s.parts[i].log[o])
  }

  /** Everything below a committed offset is handled. */
  ghost predicate Safe(s: World) {
    forall i | 0 <= i < |s.parts| :: HandledBetween(s, i, 0, s.parts[i].committed)
  }

  /** Everything the consumer has moved past is handled. */
  ghost predicate GapFree(s: World) {
    forall i | 0 <= i < |s.parts| :: HandledBetween(s, i, 0, s.parts[i].position)
  }
}
