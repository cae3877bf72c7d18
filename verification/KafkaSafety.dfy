/** At-least-once safety of the Kafka worker: what a committed offset promises,
    on which runs, and what an escaping exception costs. */
module KafkaSafety {
  import opened DeadLetterIds
  import opened EventLog

  // -------------------------------------------------------- nothing is forgotten

  ghost predicate SameShape(s: World, t: World) {
    && |t.parts| == |s.parts|
    && (forall i | 0 <= i < |s.parts| ::
          && t.parts[i].topic == s.parts[i].topic && t.parts[i].number == s.parts[i].number
          && s.parts[i].log <= t.parts[i].log)
  }

  /** Logs, letters and writes are extended, no stored key disappears, and what is
      new in the history really happened. */
  ghost predicate Grows(s: World, t: World) {
    && SameShape(s, t)
    && s.store.Keys <= t.store.Keys && s.letters <= t.letters && s.writes <= t.writes && s.filings <= t.filings
    && (forall r | r in t.filings && r !in s.filings :: Backed(t, r))
    && (forall k | |s.writes| <= k < |t.writes| :: t.writes[k].id in t.store)
  }

  lemma BackedStays(s: World, t: World, r: RecordKey)
    requires s.store.Keys <= t.store.Keys && s.letters <= t.letters && Backed(s, r)
    ensures Backed(t, r)
  {
    hide DeadLetterId;
    var l :| l in s.letters && l.source == r;
    assert l in t.letters;
  }

  lemma GrowsTransitively(s: World, t: World, u: World)
    requires Grows(s, t) && Grows(t, u)
    ensures Grows(s, u)
  {
    hide Backed;
    forall i | 0 <= i < |s.parts| ensures s.parts[i].log <= u.parts[i].log {
      assert s.parts[i].log <= t.parts[i].log <= u.parts[i].log;
    }
    forall r | r in u.filings && r !in s.filings ensures Backed(u, r) {
      if r in t.filings { BackedStays(t, u, r); }
    }
    forall k | |s.writes| <= k < |u.writes| ensures u.writes[k].id in u.store {
      if k < |t.writes| { assert u.writes[k] == t.writes[k]; }
    }
  }

  /** A step that only moves positions, commits or appends. */
  lemma SameHistoryGrows(s: World, t: World)
    requires SameShape(s, t) && t.store == s.store && t.letters == s.letters
    requires t.writes == s.writes && t.filings == s.filings
    ensures Grows(s, t)
  {
  }

  lemma HistoryStaysBacked(s: World, t: World)
    requires WellFormed(s) && Grows(s, t)
    ensures forall r | r in t.filings :: Backed(t, r)
    ensures forall k | 0 <= k < |t.writes| :: t.writes[k].id in t.store
  {
    hide Backed;
    forall r | r in t.filings ensures Backed(t, r) {
      if r in s.filings { BackedStays(s, t, r); }
    }
    forall k | 0 <= k < |t.writes| ensures t.writes[k].id in t.store {
      if k < |s.writes| { assert t.writes[k] == s.writes[k]; }
    }
  }

  lemma HandledStays(s: World, t: World, r: RecordKey, v: Value)
    requires Grows(s, t) && Handled(s, r, v)
    ensures Handled(t, r, v)
  {
    hide DeadLetterId;
    assert forall l :: l in s.letters ==> l in t.letters;
    assert forall w :: w in s.writes ==> w in t.writes;
  }

  lemma HandledBetweenStays(s: World, t: World, i: nat, lo: nat, hi: nat)
    requires Grows(s, t) && i < |s.parts| && HandledBetween(s, i, lo, hi)
    ensures HandledBetween(t, i, lo, hi)
  {
    hide Handled;
    forall o | lo <= o < hi ensures Handled(t, t.Key(i, o), t.parts[i].log[o]) {
      HandledStays(s, t, s.Key(i, o), s.parts[i].log[o]);
    }
  }

  // ------------------------------------------------------------- one record, pass

  lemma ProcessedIsHandled(s: World, r: RecordKey, v: Value, o: Outcome)
    ensures Grows(s, ProcessRecord(s, r, v, o).world)
    ensures ProcessRecord(s, r, v, o).ok ==> Handled(ProcessRecord(s, r, v, o).world, r, v)
  {
    hide DeadLetterId;
    var a := ProcessRecord(s, r, v, o);
    if a.ok && v.envelope.Anonymous? {
      assert a.world.writes[|s.writes|] == Write(o.generatedId, r);
    }
  }

  lemma DeadLetteredIsHandled(s: World, r: RecordKey, v: Value, n: nat, o: Outcome)
    ensures Grows(s, DeadLetter(s, r, v, n, o).world)
    ensures DeadLetter(s, r, v, n, o).ok ==> FiledAsDeadLetter(DeadLetter(s, r, v, n, o).world, r)
  {
    hide DeadLetterId;
    var d := DeadLetter(s, r, v, n, o);
    if d.ok {
      assert d.world.letters[|s.letters|].source == r;
    }
  }

  lemma SettledIsHandled(s: World, m: nat, r: RecordKey, v: Value, o: Outcome)
    ensures Grows(s, ProcessWithRetry(s, m, r, v, o).world)
    ensures ProcessWithRetry(s, m, r, v, o).verdict.Settled? ==> Handled(ProcessWithRetry(s, m, r, v, o).world, r, v)
  {
    hide DeadLetterId, ProcessRecord, DeadLetter;
    var a := ProcessRecord(s, r, v, o);
    ProcessedIsHandled(s, r, v, o);
    if !a.ok {
      var n := AttemptsOf(s, r) + 1;
      var s1 := a.world.(attempts := a.world.attempts[r := n], failed := a.world.failed + multiset{r});
      GrowsTransitively(s, a.world, s1);
      if n >= m {
        DeadLetteredIsHandled(s1, r, v, n, o);
        GrowsTransitively(s, s1, DeadLetter(s1, r, v, n, o).world);
      }
    }
  }

  lemma {:induction false} PassGrows(s: World, m: nat, i: nat, offset: nat, outcomes: seq<Outcome>)
    requires i < |s.parts| && offset + |outcomes| <= |s.parts[i].log|
    ensures var t := DeliverFrom(s, m, i, offset, outcomes).world;
            Grows(s, t) && t.letterBase == s.letterBase
    decreases |outcomes|
  {
    hide ProcessWithRetry;
    if outcomes != [] {
      var r, v := s.Key(i, offset), s.parts[i].log[offset];
      var p := ProcessWithRetry(s, m, r, v, outcomes[0]);
      SettledIsHandled(s, m, r, v, outcomes[0]);
      if p.verdict.Settled? {
        PassGrows(p.world, m, i, offset + 1, outcomes[1..]);
        GrowsTransitively(s, p.world, DeliverFrom(s, m, i, offset, outcomes).world);
      }
    }
  }

  lemma {:induction false} PassExtendsHandled(s: World, m: nat, i: nat, lo: nat, offset: nat, outcomes: seq<Outcome>)
    requires i < |s.parts| && offset + |outcomes| <= |s.parts[i].log|
    requires HandledBetween(s, i, lo, offset)
    ensures var p := DeliverFrom(s, m, i, offset, outcomes);
            !p.end.Aborted? ==>
              HandledBetween(p.world, i, lo, if p.end.Drained? then offset + |outcomes| else p.world.parts[i].position)
    decreases |outcomes|
  {
    hide ProcessWithRetry, Handled;
    if outcomes != [] {
      var r, v := s.Key(i, offset), s.parts[i].log[offset];
      var p := ProcessWithRetry(s, m, r, v, outcomes[0]);
      SettledIsHandled(s, m, r, v, outcomes[0]);
      HandledBetweenStays(s, p.world, i, lo, offset);
      if p.verdict.Settled? {
        PassExtendsHandled(p.world, m, i, lo, offset + 1, outcomes[1..]);
      } else if p.verdict.Pending? {
        HandledBetweenStays(p.world, Seek(p.world, i, offset), i, lo, offset);
      }
    }
  }

  // ------------------------------------------------------------------ iterations

  /** `front[i]` is the next offset of partition i the current turn will look at:
      the delivery's start while it is still waiting, the position afterwards. */
  ghost predicate Fronts(s: World, ds: seq<Delivery>, front: seq<nat>) {
    && |front| == |s.parts|
    && InRange(s, ds)
    && (forall k | 0 <= k < |ds| :: front[ds[k].index] == ds[k].offset)
    && (forall i | 0 <= i < |front| && (forall k | 0 <= k < |ds| :: ds[k].index != i) ::
          front[i] == s.parts[i].position)
    && (forall k | 0 <= k < |ds| :: s.parts[ds[k].index].position == ds[k].offset + |ds[k].outcomes|)
  }

  ghost predicate HandledUpTo(s: World, lows: seq<nat>, front: seq<nat>) {
    |lows| == |front| == |s.parts| && forall i | 0 <= i < |front| :: HandledBetween(s, i, lows[i], front[i])
  }

  ghost function Positions(s: World): (p: seq<nat>)
    ensures |p| == |s.parts|
  {
    seq(|s.parts|, i requires 0 <= i < |s.parts| => s.parts[i].position)
  }

  lemma PollFronts(s: World, ds: seq<Delivery>)
    requires Pollable(s, ds)
    ensures Fronts(Advance(s, ds), ds, Positions(s))
  {
    hide Advance;
    AdvanceReaches(s, ds);
  }

  lemma PollMovesOn(s: World, ds: seq<Delivery>)
    requires WellFormed(s) && Pollable(s, ds)
    ensures forall i | 0 <= i < |s.parts| ::
              s.parts[i].position <= Advance(s, ds).parts[i].position <= |s.parts[i].log|
  {
    hide Advance, Backed, DistinctParts;
    AdvanceReaches(s, ds);
    forall i | 0 <= i < |s.parts| ensures s.parts[i].position <= Advance(s, ds).parts[i].position <= |s.parts[i].log| {
      if k :| 0 <= k < |ds| && ds[k].index == i {
        assert Advance(s, ds).parts[ds[k].index].position == ds[k].offset + |ds[k].outcomes|;
      }
    }
  }

  /** The fronts after the first delivery of a batch has been worked off. */
  lemma FrontsMove(s: World, m: nat, ds: seq<Delivery>, front: seq<nat>)
    requires Fronts(s, ds, front) && ds != []
    requires !DeliverFrom(s, m, ds[0].index, ds[0].offset, ds[0].outcomes).end.Aborted?
    ensures var p := DeliverFrom(s, m, ds[0].index, ds[0].offset, ds[0].outcomes);
            Fronts(p.world, ds[1..], front[ds[0].index := p.world.parts[ds[0].index].position])
  {
    hide DeliverFrom;
    var p := DeliverFrom(s, m, ds[0].index, ds[0].offset, ds[0].outcomes);
    var front' := front[ds[0].index := p.world.parts[ds[0].index].position];
    forall i | 0 <= i < |front'| && (forall k | 0 <= k < |ds[1..]| :: ds[1..][k].index != i)
      ensures front'[i] == p.world.parts[i].position
    {
      if i != ds[0].index {
        assert forall k | 0 <= k < |ds| :: ds[k].index != i by {
          forall k | 0 <= k < |ds| ensures ds[k].index != i {
            if k > 0 { assert ds[k] == ds[1..][k - 1]; }
          }
        }
      }
    }
  }

  function AnyAfter(any: bool, d: Delivery, p: Pass): bool {
    any || (p.end.Drained? && d.outcomes != [])
  }

  lemma DrainByOne(s: World, m: nat, ds: seq<Delivery>, any: bool, failed: bool)
    requires InRange(s, ds) && ds != []
    ensures var p := DeliverFrom(s, m, ds[0].index, ds[0].offset, ds[0].outcomes);
            && InRange(p.world, ds[1..])
            && DrainBatches(s, m, ds, any, failed) ==
               if p.end.Aborted? then Iteration(p.world, Raises)
               else
                 var any' := any || (p.end.Drained? && ds[0].outcomes != []);
                 DrainBatches(p.world, m, ds[1..], any', failed || p.end.Rewound?)
  {
    hide DeliverFrom;
  }

  lemma DrainNothing(s: World, m: nat, ds: seq<Delivery>, any: bool, failed: bool)
    requires ds == []
    ensures DrainBatches(s, m, ds, any, failed)
         == Iteration(s, if any && !failed then Commits else if failed then Sleeps else Idles)
  {
  }

  lemma {:induction false} DrainKeepsHandled(
    s: World, m: nat, ds: seq<Delivery>, any: bool, failed: bool, lows: seq<nat>, front: seq<nat>)
    requires Fronts(s, ds, front) && HandledUpTo(s, lows, front)
    ensures var it := DrainBatches(s, m, ds, any, failed);
            !it.end.Raises? ==> HandledUpTo(it.world, lows, Positions(it.world))
    decreases |ds|
  {
    hide DeliverFrom, HandledBetween;
    if ds == [] {
      assert front == Positions(s);
    } else {
      var d := ds[0];
      var p := DeliverFrom(s, m, d.index, d.offset, d.outcomes);
      if !p.end.Aborted? {
        PassGrows(s, m, d.index, d.offset, d.outcomes);
        PassExtendsHandled(s, m, d.index, lows[d.index], d.offset, d.outcomes);
        FrontsMove(s, m, ds, front);
        var front' := front[d.index := p.world.parts[d.index].position];
        forall i | 0 <= i < |front'| ensures HandledBetween(p.world, i, lows[i], front'[i]) {
          if i != d.index { HandledBetweenStays(s, p.world, i, lows[i], front[i]); }
        }
        DrainKeepsHandled(p.world, m, ds[1..], AnyAfter(any, d, p), failed || p.end.Rewound?, lows, front');
      }
    }
  }

  /** A turn changes positions only, each one staying between where the turn
      began and where the poll had moved it. */
  lemma {:induction false} DrainMovesPositions(
    s: World, m: nat, ds: seq<Delivery>, any: bool, failed: bool, front: seq<nat>)
    requires Fronts(s, ds, front)
    requires forall i | 0 <= i < |front| :: front[i] <= s.parts[i].position
    ensures var t := DrainBatches(s, m, ds, any, failed).world;
            && Grows(s, t) && t.letterBase == s.letterBase
            && (forall i | 0 <= i < |s.parts| ::
                  && t.parts[i] == s.parts[i].(position := t.parts[i].position)
                  && front[i] <= t.parts[i].position <= s.parts[i].position)
    decreases |ds|
  {
    hide DeliverFrom;
    if ds != [] {
      var d := ds[0];
      var p := DeliverFrom(s, m, d.index, d.offset, d.outcomes);
      PassGrows(s, m, d.index, d.offset, d.outcomes);
      if !p.end.Aborted? {
        FrontsMove(s, m, ds, front);
        var front' := front[d.index := p.world.parts[d.index].position];
        DrainMovesPositions(p.world, m, ds[1..], AnyAfter(any, d, p), failed || p.end.Rewound?, front');
        GrowsTransitively(s, p.world, DrainBatches(s, m, ds, any, failed).world);
      }
    }
  }

  /** What every turn does, whether or not it escapes. */
  lemma TurnShape(s: World, m: nat, ds: seq<Delivery>)
    requires WellFormed(s) && Pollable(s, ds)
    ensures var t := Iterate(s, m, ds).world;
            && WellFormed(t) && Grows(s, t) && t.letterBase == s.letterBase
            && (forall i | 0 <= i < |s.parts| ::
                  && t.parts[i] == s.parts[i].(position := t.parts[i].position)
                  && s.parts[i].position <= t.parts[i].position)
  {
    hide DrainBatches, Grows, Backed, Fronts, Advance;
    var s1 := Advance(s, ds);
    PollFronts(s, ds);
    PollMovesOn(s, ds);
    DrainMovesPositions(s1, m, ds, false, false, Positions(s));
    var t := Iterate(s, m, ds).world;
    SameHistoryGrows(s, s1);
    GrowsTransitively(s, s1, t);
    HistoryStaysBacked(s, t);
    GrowsKeepsShape(s, t);
  }

  lemma GrowsKeepsShape(s: World, t: World)
    requires Grows(s, t)
    ensures SameShape(s, t) && |s.letters| <= |t.letters|
  {
  }

  lemma StepShape(s: World, m: nat, step: Step)
    requires WellFormed(s) && Enabled(s, step)
    ensures WellFormed(Apply(s, m, step)) && Grows(s, Apply(s, m, step))
  {
    hide Iterate, Grows, Backed;
    var t := Apply(s, m, step);
    if step.Append? {
      SameHistoryGrows(s, t);
    } else {
      var u := Iterate(s, m, step.ds).world;
      TurnShape(s, m, step.ds);
      SameHistoryGrows(u, t);
      GrowsTransitively(s, u, t);
    }
    HistoryStaysBacked(s, t);
  }

  /** A new process: every consumer resumes at its committed offset, nothing is
      counted yet, and nothing that was stored or sent is gone. */
  lemma RestartResumes(s: World)
    requires WellFormed(s)
    ensures var t := Restart(s);
            && Fresh(t) && |t.parts| == |s.parts|
            && (forall i | 0 <= i < |s.parts| ::
                  && t.parts[i].position == s.parts[i].committed
                  && t.parts[i] == s.parts[i].(position := t.parts[i].position))
            && t.store == s.store && t.letters == s.letters && t.writes == s.writes && t.filings == s.filings
  {
    forall r | r in s.filings ensures Backed(Restart(s), r) { BackedStays(s, Restart(s), r); }
  }

  // ---------------------------------------------------------------- safety of runs

  /** A turn that does not escape leaves no gap beyond the ones it found. */
  lemma TurnHandlesWhatItPasses(s: World, m: nat, ds: seq<Delivery>, lows: seq<nat>)
    requires WellFormed(s) && Pollable(s, ds) && HandledUpTo(s, lows, Positions(s))
    requires !Iterate(s, m, ds).end.Raises?
    ensures HandledUpTo(Iterate(s, m, ds).world, lows, Positions(Iterate(s, m, ds).world))
  {
    hide DrainBatches, HandledBetween;
    var s1 := Advance(s, ds);
    PollFronts(s, ds);
    assert Grows(s, s1);
    forall i | 0 <= i < |s.parts| ensures HandledBetween(s1, i, lows[i], Positions(s)[i]) {
      HandledBetweenStays(s, s1, i, lows[i], Positions(s)[i]);
    }
    DrainKeepsHandled(s1, m, ds, false, false, lows, Positions(s));
  }

  ghost function Zeros(s: World): (z: seq<nat>)
    ensures |z| == |s.parts|
  {
    seq(|s.parts|, i => 0)
  }

  lemma GapFreeIsHandled(s: World)
    ensures GapFree(s) <==> HandledUpTo(s, Zeros(s), Positions(s))
  {
    hide HandledBetween;
    if GapFree(s) {
      assert forall i | 0 <= i < |s.parts| :: HandledBetween(s, i, 0, s.parts[i].position);
    }
    if HandledUpTo(s, Zeros(s), Positions(s)) {
      forall i | 0 <= i < |s.parts| ensures HandledBetween(s, i, 0, s.parts[i].position) {
        assert HandledBetween(s, i, Zeros(s)[i], Positions(s)[i]);
      }
    }
  }

  lemma GapFreeIsSafe(s: World)
    requires WellFormed(s) && GapFree(s)
    ensures Safe(s)
  {
    hide Handled;
    forall i | 0 <= i < |s.parts| ensures HandledBetween(s, i, 0, s.parts[i].committed) {
      assert HandledBetween(s, i, 0, s.parts[i].position);
    }
  }

  lemma StepKeepsGapFree(s: World, m: nat, step: Step)
    requires WellFormed(s) && GapFree(s) && Enabled(s, step) && !Escapes(s, m, step)
    ensures GapFree(Apply(s, m, step))
  {
    hide Iterate, HandledBetween;
    var t := Apply(s, m, step);
    StepShape(s, m, step);
    match step
    case Poll(ds, commit) =>
      var u := Iterate(s, m, ds).world;
      TurnShape(s, m, ds);
      GapFreeIsHandled(s);
      assert Zeros(u) == Zeros(s);
      TurnHandlesWhatItPasses(s, m, ds, Zeros(s));
      GapFreeIsHandled(u);
      assert Grows(u, t);
      forall i | 0 <= i < |t.parts| ensures HandledBetween(t, i, 0, t.parts[i].position) {
        HandledBetweenStays(u, t, i, 0, u.parts[i].position);
      }
    case Crash(ds) =>
      TurnShape(s, m, ds);
      GapFreeIsSafe(s);
      forall i | 0 <= i < |t.parts| ensures HandledBetween(t, i, 0, t.parts[i].position) {
        HandledBetweenStays(s, t, i, 0, s.parts[i].committed);
      }
    case Append(i, v) =>
      forall j | 0 <= j < |t.parts| ensures HandledBetween(t, j, 0, t.parts[j].position) {
        HandledBetweenStays(s, t, j, 0, s.parts[j].position);
      }
  }

  lemma {:induction false} CommittedIsHandledFrom(s: World, m: nat, steps: seq<Step>, t: World)
    requires WellFormed(s) && GapFree(s) && Run(s, m, steps, t) && NoEscape(s, m, steps)
    ensures WellFormed(t) && GapFree(t) && Safe(t)
    decreases |steps|
  {
    hide Apply, GapFree;
    if steps == [] {
      GapFreeIsSafe(t);
    } else {
      StepShape(s, m, steps[0]);
      StepKeepsGapFree(s, m, steps[0]);
      CommittedIsHandledFrom(Apply(s, m, steps[0]), m, steps[1..], t);
    }
  }

  lemma FreshIsGapFree(s: World)
    requires Fresh(s) && Safe(s)
    ensures GapFree(s)
  {
    hide HandledBetween;
    forall i | 0 <= i < |s.parts| ensures HandledBetween(s, i, 0, s.parts[i].position) {
      assert HandledBetween(s, i, 0, s.parts[i].committed);
    }
  }

  /** At-least-once: on every run in which no dead letter and no seek raises,
      through any batches, record outcomes, foreign writers, lost replies, failing
      commits and crashes, every offset below a committed one is handled. */
  lemma CommittedIsHandled(s: World, m: nat, steps: seq<Step>, t: World)
    requires Fresh(s) && Safe(s) && Run(s, m, steps, t) && NoEscape(s, m, steps)
    ensures Safe(t) && GapFree(t)
  {
    hide Run, NoEscape;
    FreshIsGapFree(s);
    CommittedIsHandledFrom(s, m, steps, t);
  }
}
