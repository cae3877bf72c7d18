/** Several event workers racing on the same event id: the duplicate check of
    `process_record` composed with the two steps of `put`
    (services/event_worker/app/main.py, shared/dynamodb.py). */
module EventRace {
  import opened Repository

  /** Where a worker is with its delivery of the event. Retrying: the next
      delivery starts with the lookup again. */
  datatype Stage = Retrying | Looked | Holding(read: Option<Item<nat>>) | Done | DeadLettered
  datatype Worker = Worker(stage: Stage, attempts: nat)

  /** `entry` is the stored event, its data the worker that wrote it. */
  datatype Race = Race(entry: Option<Item<nat>>, workers: seq<Worker>)

  datatype Step = Lookup(w: nat) | ReadForPut(w: nat) | ConditionalWrite(w: nat)

  predicate Enabled(s: Race, step: Step) {
    && step.w < |s.workers|
    && match step
       case Lookup(w) => s.workers[w].stage.Retrying?
       case ReadForPut(w) => s.workers[w].stage.Looked?
       case ConditionalWrite(w) => s.workers[w].stage.Holding?
  }

  function Place(s: Race, w: nat, worker: Worker): Race
    requires w < |s.workers|
  {
    s.(workers := s.workers[w := worker])
  }

  /** A lookup that finds the entry takes the duplicate branch. A refused write
      raises, which costs an attempt; the max-th attempt dead-letters. */
  function Apply(s: Race, max: nat, step: Step): Race
    requires Enabled(s, step)
  {
    var me := s.workers[step.w];
    match step
    case Lookup(w) => Place(s, w, me.(stage := if s.entry.Some? then Done else Looked))
    case ReadForPut(w) => Place(s, w, me.(stage := Stage.Holding(s.entry)))
    case ConditionalWrite(w) =>
      if Condition(me.stage.read, s.entry) then
        Place(s.(entry := Some(Successor(me.stage.read, w))), w, me.(stage := Done))
      else
        Place(s, w, Worker(if me.attempts + 1 < max then Retrying else DeadLettered, me.attempts + 1))
  }

  ghost predicate Run(s: Race, max: nat, steps: seq<Step>, t: Race)
    decreases |steps|
  {
    if steps == [] then s == t else Enabled(s, steps[0]) && Run(Apply(s, max, steps[0]), max, steps[1..], t)
  }

  /** n workers about to process the event for the first time. */
  function Initial(n: nat): Race {
    Race(None, seq(n, w => Worker(Retrying, 0)))
  }

  ghost predicate SomeoneGaveUp(s: Race) {
    exists w :: 0 <= w < |s.workers| && s.workers[w].stage.DeadLettered?
  }

  /** A worker that lost a write race has the winner's entry to find; one that is
      between its lookup and its write has not lost any yet. */
  ghost predicate LoserFindsEntry(s: Race) {
    forall w | 0 <= w < |s.workers| ::
      && (s.workers[w].attempts >= 1 ==> s.entry.Some? && s.workers[w].attempts == 1)
      && (s.workers[w].stage.Looked? || s.workers[w].stage.Holding? ==> s.workers[w].attempts == 0)
      && !s.workers[w].stage.DeadLettered?
      && (s.workers[w].stage.Holding? && s.workers[w].stage.read.Some? ==> s.entry.Some?)
      && (s.workers[w].stage.Done? ==> s.entry.Some?)
  }

  lemma {:induction false} RaceNeverDeadLetters(s: Race, max: nat, steps: seq<Step>, t: Race)
    requires max >= 2 && LoserFindsEntry(s) && Run(s, max, steps, t)
    ensures LoserFindsEntry(t) && !SomeoneGaveUp(t)
    decreases |steps|
  {
    if steps != [] {
      RaceNeverDeadLetters(Apply(s, max, steps[0]), max, steps[1..], t);
    }
  }

  /** On any run, a worker whose put was refused finds the entry at its very next
      lookup and is done. */
  lemma NextAttemptIsADuplicate(n: nat, max: nat, steps: seq<Step>, t: Race, w: nat)
    requires max >= 2 && Run(Initial(n), max, steps, t) && w < |t.workers|
    requires t.workers[w].attempts >= 1 && t.workers[w].stage.Retrying?
    ensures Apply(t, max, Lookup(w)).workers[w].stage.Done? && t.workers[w].attempts == 1
  {
    RaceNeverDeadLetters(Initial(n), max, steps, t);
  }

  /** A lone worker always writes what it read. */
  ghost predicate Alone(s: Race) {
    && |s.workers| <= 1
    && (forall w | 0 <= w < |s.workers| ::
          && s.workers[w].attempts == 0 && !s.workers[w].stage.DeadLettered?
          && (s.workers[w].stage.Looked? ==> s.entry.None?)
          && (s.workers[w].stage.Holding? ==> s.entry.None? && s.workers[w].stage.read.None?))
  }

  lemma {:induction false} LoneWorkerNeverLoses(s: Race, max: nat, steps: seq<Step>, t: Race)
    requires Alone(s) && Run(s, max, steps, t)
    ensures Alone(t) && !SomeoneGaveUp(t)
    decreases |steps|
  {
    if steps != [] {
      LoneWorkerNeverLoses(Apply(s, max, steps[0]), max, steps[1..], t);
    }
  }

  /** With a single attempt allowed, two workers that both looked and read before
      either wrote: the second one is refused and dead-letters a stored event. */
  lemma SingleAttemptRace(n: nat, max: nat) returns (steps: seq<Step>, t: Race)
    requires n >= 2 && max <= 1
    ensures Run(Initial(n), max, steps, t) && SomeoneGaveUp(t) && t.entry.Some?
  {
    var s0 := Initial(n);
    var s1 := Apply(s0, max, Lookup(0));
    var s2 := Apply(s1, max, Lookup(1));
    var s3 := Apply(s2, max, ReadForPut(0));
    var s4 := Apply(s3, max, ReadForPut(1));
    var s5 := Apply(s4, max, ConditionalWrite(0));
    t := Apply(s5, max, ConditionalWrite(1));
    assert t.workers[1].stage.DeadLettered?;
    steps := [];
    assert Run(t, max, [], t);
    assert Run(s5, max, [ConditionalWrite(1)], t) by { assert [ConditionalWrite(1)][1..] == []; }
    steps := Cons(s4, max, ConditionalWrite(0), [ConditionalWrite(1)], t);
    steps := Cons(s3, max, ReadForPut(1), steps, t);
    steps := Cons(s2, max, ReadForPut(0), steps, t);
    steps := Cons(s1, max, Lookup(1), steps, t);
    steps := Cons(s0, max, Lookup(0), steps, t);
  }

  lemma Cons(s: Race, max: nat, step: Step, rest: seq<Step>, t: Race) returns (steps: seq<Step>)
    requires Enabled(s, step) && Run(Apply(s, max, step), max, rest, t)
    ensures steps == [step] + rest && Run(s, max, steps, t)
  {
    steps := [step] + rest;
    assert steps[1..] == rest;
  }

  lemma InitialIsCalm(n: nat)
    ensures LoserFindsEntry(Initial(n)) && (n <= 1 ==> Alone(Initial(n)))
  {
  }

  /** A write race alone dead-letters an event on some interleaving if and only if
      there is a second worker and only one attempt is allowed. */
  lemma RaceIsHarmlessIff(n: nat, max: nat)
    ensures (max >= 2 || n <= 1) <==> forall steps, t :: Run(Initial(n), max, steps, t) ==> !SomeoneGaveUp(t)
  {
    hide SomeoneGaveUp;
    if max >= 2 || n <= 1 {
      InitialIsCalm(n);
      forall steps, t | Run(Initial(n), max, steps, t) ensures !SomeoneGaveUp(t) {
        if max >= 2 {
          RaceNeverDeadLetters(Initial(n), max, steps, t);
        } else {
          LoneWorkerNeverLoses(Initial(n), max, steps, t);
        }
      }
    } else {
      var steps, t := SingleAttemptRace(n, max);
      assert Run(Initial(n), max, steps, t) && SomeoneGaveUp(t);
      assert exists steps, t :: Run(Initial(n), max, steps, t) && SomeoneGaveUp(t);
    }
  }
}
