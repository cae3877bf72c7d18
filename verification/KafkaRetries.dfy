/** Retry bookkeeping and progress: what the attempts map can hold between turns,
    what a dead letter's attempt count means, and why a finite log is drained. */
module KafkaRetries {
  import opened DeadLetterIds
  import opened EventLog
  import opened KafkaSafety

  ghost function FailuresAt(s: World, i: nat, o: nat): nat
    requires i < |s.parts|
  {
    s.failed[s.Key(i, o)]
  }

  ghost predicate AtFront(s: World, front: seq<nat>, i: nat, r: RecordKey)
    requires |front| == |s.parts| && i < |front|
  {
    front[i] < |s.parts[i].log| && r == s.Key(i, front[i])
  }

  /** Only the next record of a partition can have attempts pending, fewer than m
      of them, and each counts one failed call of the current process. */
  ghost predicate CountersAt(s: World, m: nat, front: seq<nat>) {
    && |front| == |s.parts|
    && (forall r | r in s.attempts :: 1 <= s.attempts[r] < m && exists i :: 0 <= i < |front| && AtFront(s, front, i, r))
    && (forall i, o: nat | 0 <= i < |front| && front[i] <= o :: FailuresAt(s, i, o) == AttemptsAt(s, i, o))
  }

  /** A dead letter of the current process: behind the consumer, with the record's
      own value, after exactly m failed calls in this process. */
  ghost predicate LetterAccounted(s: World, m: nat, front: seq<nat>, l: Letter, i: nat)
    requires |front| == |s.parts| && i < |front|
  {
    var o := l.source.offset;
    && o < front[i] && o < |s.parts[i].log| && l.source == s.Key(i, o) && l.original == s.parts[i].log[o]
    && s.failed[l.source] == m
  }

  ghost predicate Accounted(s: World, m: nat, front: seq<nat>, l: Letter)
    requires |front| == |s.parts|
  {
    exists i :: 0 <= i < |front| && LetterAccounted(s, m, front, l, i)
  }

  ghost predicate LettersAt(s: World, m: nat, front: seq<nat>) {
    && |front| == |s.parts| && s.letterBase <= |s.letters|
    && (forall k | s.letterBase <= k < |s.letters| :: Accounted(s, m, front, s.letters[k]))
    && (forall j, k | s.letterBase <= j < k < |s.letters| :: s.letters[j].source != s.letters[k].source)
  }

  /** Every dead letter ever sent reports exactly m attempts under its record's id. */
  ghost predicate LettersCarry(s: World, m: nat) {
    forall k | 0 <= k < |s.letters| ::
      s.letters[k].attempts == m && s.letters[k].key == DeadLetterId(s.letters[k].source)
  }

  ghost predicate Booked(s: World, m: nat, front: seq<nat>) {
    CountersAt(s, m, front) && LettersAt(s, m, front) && LettersCarry(s, m)
  }

  // -------------------------------------------------------------------- one record

  /** What one call does to counters and letters. */
  lemma RetryLedger(s: World, m: nat, r: RecordKey, v: Value, o: Outcome)
    ensures var p := ProcessWithRetry(s, m, r, v, o);
            var n := AttemptsOf(s, r) + 1;
            var sent := s.letters + [Letter(DeadLetterId(r), r, v, n)];
            match p.verdict
            case Settled =>
              && p.world.attempts == s.attempts - {r}
              && ((p.world.failed == s.failed && p.world.letters == s.letters)
                  || (n >= m && p.world.failed == s.failed + multiset{r} && p.world.letters == sent))
            case Pending =>
              && n < m && p.world.attempts == s.attempts[r := n]
              && p.world.failed == s.failed + multiset{r} && p.world.letters == s.letters
            case Escaped =>
              && n >= m && p.world.attempts == s.attempts[r := n] && p.world.failed == s.failed + multiset{r}
              && (p.world.letters == s.letters || p.world.letters == sent)
  {
    hide DeadLetterId, ProcessRecord;
    var n := AttemptsOf(s, r) + 1;
    assert s.attempts[r := n] - {r} == s.attempts - {r};
  }

  lemma FrontIsUnique(s: World, front: seq<nat>, i: nat, j: nat, r: RecordKey)
    requires DistinctParts(s) && |front| == |s.parts| && i < |front| && j < |front|
    requires AtFront(s, front, j, r) && r.topic == s.parts[i].topic && r.partition == s.parts[i].number
    ensures i == j
  {
  }

  lemma KeysDiffer(s: World, i: nat, o: nat, j: nat, q: nat)
    requires DistinctParts(s) && i < |s.parts| && j < |s.parts| && (i != j || o != q)
    ensures s.Key(i, o) != s.Key(j, q)
  {
  }

  lemma CountersAfterSettled(s: World, t: World, m: nat, front: seq<nat>, i: nat)
    requires DistinctParts(s) && CountersAt(s, m, front) && i < |front| && t.parts == s.parts
    requires var r := s.Key(i, front[i]);
             t.attempts == s.attempts - {r} && (t.failed == s.failed || t.failed == s.failed + multiset{r})
    ensures CountersAt(t, m, front[i := front[i] + 1])
  {
    var r, front' := s.Key(i, front[i]), front[i := front[i] + 1];
    forall q | q in t.attempts
      ensures 1 <= t.attempts[q] < m && exists j :: 0 <= j < |front'| && AtFront(t, front', j, q)
    {
      StillAtFront(s, t, m, front, front', i, q);
    }
    forall j, o: nat | 0 <= j < |front'| && front'[j] <= o ensures FailuresAt(t, j, o) == AttemptsAt(t, j, o) {
      assert FailuresAt(s, j, o) == AttemptsAt(s, j, o);
      KeysDiffer(s, j, o, i, front[i]);
    }
  }

  lemma StillAtFront(s: World, t: World, m: nat, front: seq<nat>, front': seq<nat>, i: nat, q: RecordKey)
    requires CountersAt(s, m, front) && i < |front| && t.parts == s.parts && front' == front[i := front[i] + 1]
    requires q != s.Key(i, front[i]) && q in s.attempts
    ensures 1 <= s.attempts[q] < m
    ensures exists j :: 0 <= j < |front'| && AtFront(t, front', j, q)
  {
    var j :| 0 <= j < |front| && AtFront(s, front, j, q);
    assert j != i;
    assert AtFront(t, front', j, q);
  }

  lemma CountersAfterPending(s: World, t: World, m: nat, front: seq<nat>, i: nat)
    requires DistinctParts(s) && CountersAt(s, m, front) && i < |front| && t.parts == s.parts
    requires front[i] < |s.parts[i].log|
    requires var r := s.Key(i, front[i]);
             var n := AttemptsOf(s, r) + 1;
             n < m && t.attempts == s.attempts[r := n] && t.failed == s.failed + multiset{r}
    ensures CountersAt(t, m, front)
  {
    var r := s.Key(i, front[i]);
    forall q | q in t.attempts
      ensures 1 <= t.attempts[q] < m && exists j :: 0 <= j < |front| && AtFront(t, front, j, q)
    {
      if q == r {
        assert AtFront(t, front, i, q);
      } else {
        var j :| 0 <= j < |front| && AtFront(s, front, j, q);
        assert AtFront(t, front, j, q);
      }
    }
    forall j, o: nat | 0 <= j < |front| && front[j] <= o ensures FailuresAt(t, j, o) == AttemptsAt(t, j, o) {
      assert FailuresAt(s, j, o) == AttemptsAt(s, j, o);
    }
  }

  /** A letter already accounted for stays so while fronts only advance and the
      calls that fail are for records at or beyond the front. */
  lemma AccountedStays(s: World, t: World, m: nat, front: seq<nat>, front': seq<nat>, l: Letter, i: nat, r: RecordKey)
    requires |front| == |front'| == |s.parts| && t.parts == s.parts && i < |front|
    requires LetterAccounted(s, m, front, l, i) && front[i] <= front'[i]
    requires t.failed == s.failed || t.failed == s.failed + multiset{r}
    requires l.source != r
    ensures LetterAccounted(t, m, front', l, i)
  {
  }

  lemma BehindIsNotFront(s: World, m: nat, front: seq<nat>, l: Letter, i: nat, j: nat)
    requires DistinctParts(s) && |front| == |s.parts| && i < |front| && j < |front|
    requires LetterAccounted(s, m, front, l, j)
    ensures l.source != s.Key(i, front[i])
  {
  }

  lemma LettersAfterCall(s: World, t: World, m: nat, front: seq<nat>, front': seq<nat>, i: nat)
    requires DistinctParts(s) && LettersAt(s, m, front) && i < |front| == |front'| && t.parts == s.parts
    requires t.letterBase == s.letterBase
    requires forall j | 0 <= j < |front| :: front[j] <= front'[j]
    requires var r := s.Key(i, front[i]);
             t.failed == s.failed || t.failed == s.failed + multiset{r}
    requires t.letters == s.letters
             || (&& |t.letters| == |s.letters| + 1 && t.letters[..|s.letters|] == s.letters
                 && LetterAccounted(t, m, front', t.letters[|s.letters|], i)
                 && t.letters[|s.letters|].source == s.Key(i, front[i]))
    ensures LettersAt(t, m, front')
  {
    hide LetterAccounted;
    var r, n := s.Key(i, front[i]), |s.letters|;
    forall k | s.letterBase <= k < n
      ensures t.letters[k] == s.letters[k] && t.letters[k].source != r
      ensures Accounted(t, m, front', t.letters[k])
    {
      assert t.letters[k] == s.letters[k] by { if t.letters != s.letters { assert t.letters[..n][k] == s.letters[k]; } }
      var j :| 0 <= j < |front| && LetterAccounted(s, m, front, s.letters[k], j);
      BehindIsNotFront(s, m, front, s.letters[k], i, j);
      AccountedStays(s, t, m, front, front', s.letters[k], j, r);
    }
    forall k | t.letterBase <= k < |t.letters|
      ensures Accounted(t, m, front', t.letters[k])
    {
      if k == n {
        assert LetterAccounted(t, m, front', t.letters[k], i);
      } else {
        assert t.letters[k] == s.letters[k];
      }
    }
    forall j, k | t.letterBase <= j < k < |t.letters| ensures t.letters[j].source != t.letters[k].source {
      assert t.letters[j] == s.letters[j] && t.letters[j].source != r;
      if k < n { assert t.letters[k] == s.letters[k]; }
    }
  }

  lemma CallIsBooked(s: World, m: nat, front: seq<nat>, i: nat, o: Outcome)
    requires m >= 1 && DistinctParts(s) && Booked(s, m, front) && i < |front| && front[i] < |s.parts[i].log|
    ensures var p := ProcessWithRetry(s, m, s.Key(i, front[i]), s.parts[i].log[front[i]], o);
            && LettersCarry(p.world, m)
            && (p.verdict.Settled? ==> Booked(p.world, m, front[i := front[i] + 1]))
            && (p.verdict.Pending? ==> Booked(p.world, m, front))
            && (p.verdict.Escaped? ==>
                  AttemptsAt(p.world, i, front[i]) == m && FailuresAt(p.world, i, front[i]) == m)
  {
    hide ProcessWithRetry, DeadLetterId, LettersAt;
    var r, v := s.Key(i, front[i]), s.parts[i].log[front[i]];
    var p := ProcessWithRetry(s, m, r, v, o);
    var n := AttemptsOf(s, r) + 1;
    RetryLedger(s, m, r, v, o);
    assert n <= m && s.failed[r] == n - 1 by {
      assert FailuresAt(s, i, front[i]) == AttemptsAt(s, i, front[i]);
    }
    if p.verdict.Settled? {
      var front' := front[i := front[i] + 1];
      CountersAfterSettled(s, p.world, m, front, i);
      if p.world.letters != s.letters {
        assert LetterAccounted(p.world, m, front', p.world.letters[|s.letters|], i);
      }
      LettersAfterCall(s, p.world, m, front, front', i);
    } else if p.verdict.Pending? {
      CountersAfterPending(s, p.world, m, front, i);
      LettersAfterCall(s, p.world, m, front, front, i);
    }
  }

  // --------------------------------------------------------------------- potential

  ghost function Term(s: World, m: nat, front: seq<nat>, i: nat): int
    requires |front| == |s.parts| && i < |front|
  {
    (|s.parts[i].log| - front[i]) * m - AttemptsAt(s, i, front[i])
  }

  /** The sum over partitions of (end - front) * m - attempts at the front. */
  ghost function Potential(s: World, m: nat, front: seq<nat>, n: nat): int
    requires |front| == |s.parts| && n <= |front|
  {
    if n == 0 then 0 else Potential(s, m, front, n - 1) + Term(s, m, front, n - 1)
  }

  lemma {:induction false} PotentialChange(
    s: World, t: World, m: nat, front: seq<nat>, front': seq<nat>, i: nat, n: nat)
    requires |front| == |s.parts| && |front'| == |t.parts| == |s.parts| && i < |front| && n <= |front|
    requires forall j | 0 <= j < |front| && j != i :: Term(t, m, front', j) == Term(s, m, front, j)
    ensures Potential(t, m, front', n) - Potential(s, m, front, n)
         == if i < n then Term(t, m, front', i) - Term(s, m, front, i) else 0
    decreases n
  {
    hide Term;
    if n > 0 {
      PotentialChange(s, t, m, front, front', i, n - 1);
    }
  }

  lemma {:induction false} PotentialIsNatural(s: World, m: nat, front: seq<nat>, n: nat)
    requires DistinctParts(s) && CountersAt(s, m, front) && n <= |front|
    requires forall i | 0 <= i < |front| :: front[i] <= |s.parts[i].log|
    ensures Potential(s, m, front, n) >= 0
    ensures m >= 1 && (exists i :: 0 <= i < n && front[i] < |s.parts[i].log|) ==> Potential(s, m, front, n) > 0
    decreases n
  {
    if n > 0 {
      PotentialIsNatural(s, m, front, n - 1);
      var i := n - 1;
      NoCounterBeyondTheEnd(s, m, front, i);
      AtLeastOneTimes(|s.parts[i].log| - front[i], m);
    }
  }

  lemma AtLeastOneTimes(n: nat, m: nat)
    ensures n * m >= 0 && (n > 0 ==> n * m >= m)
  {
    if n > 0 {
      assert n * m == (n - 1) * m + m;
      assert (n - 1) * m >= 0;
    }
  }

  lemma NoCounterBeyondTheEnd(s: World, m: nat, front: seq<nat>, i: nat)
    requires CountersAt(s, m, front) && i < |front|
    ensures AttemptsAt(s, i, front[i]) < m || m == 0
    ensures front[i] == |s.parts[i].log| && DistinctParts(s) ==> AttemptsAt(s, i, front[i]) == 0
  {
    var r := s.Key(i, front[i]);
    if r in s.attempts && front[i] == |s.parts[i].log| && DistinctParts(s) {
      var j :| 0 <= j < |front| && AtFront(s, front, j, r);
      FrontIsUnique(s, front, i, j, r);
    }
  }

  /** Every processing call spends potential, whether it settles or fails. */
  lemma CallSpends(s: World, m: nat, front: seq<nat>, i: nat, o: Outcome)
    requires m >= 1 && DistinctParts(s) && CountersAt(s, m, front) && i < |front| && front[i] < |s.parts[i].log|
    ensures var p := ProcessWithRetry(s, m, s.Key(i, front[i]), s.parts[i].log[front[i]], o);
            && (p.verdict.Settled? ==>
                  Potential(p.world, m, front[i := front[i] + 1], |front|) < Potential(s, m, front, |front|))
            && (p.verdict.Pending? ==> Potential(p.world, m, front, |front|) < Potential(s, m, front, |front|))
  {
    hide ProcessWithRetry, Potential;
    var r, v := s.Key(i, front[i]), s.parts[i].log[front[i]];
    var p := ProcessWithRetry(s, m, r, v, o);
    RetryLedger(s, m, r, v, o);
    NoCounterBeyondTheEnd(s, m, front, i);
    forall j, q: nat | 0 <= j < |front| && (j != i || q != front[i])
      ensures AttemptsAt(p.world, j, q) == AttemptsAt(s, j, q) || p.verdict.Escaped?
    {
      KeysDiffer(s, j, q, i, front[i]);
    }
    if p.verdict.Settled? {
      var front' := front[i := front[i] + 1];
      NothingTriedBehindTheFront(s, m, front, i, front[i] + 1);
      var left := |s.parts[i].log| - front[i];
      assert (left - 1) * m == left * m - m;
      PotentialChange(s, p.world, m, front, front', i, |front|);
    } else if p.verdict.Pending? {
      PotentialChange(s, p.world, m, front, front, i, |front|);
    }
  }

  lemma NothingTriedBehindTheFront(s: World, m: nat, front: seq<nat>, i: nat, o: nat)
    requires DistinctParts(s) && CountersAt(s, m, front) && i < |front| && o > front[i]
    ensures AttemptsAt(s, i, o) == 0
  {
    var r := s.Key(i, o);
    if r in s.attempts {
      var j :| 0 <= j < |front| && AtFront(s, front, j, r);
      FrontIsUnique(s, front, i, j, r);
    }
  }

  // --------------------------------------------------------------------- iterations

  ghost function FrontAfter(front: seq<nat>, i: nat, offset: nat, n: nat, p: Pass): seq<nat>
    requires i < |front| && i < |p.world.parts|
  {
    front[i := if p.end.Drained? then offset + n else p.world.parts[i].position]
  }

  lemma SeekKeepsBooks(s: World, m: nat, front: seq<nat>, i: nat, o: nat)
    requires Booked(s, m, front) && i < |s.parts|
    ensures Booked(Seek(s, i, o), m, front)
    ensures Potential(Seek(s, i, o), m, front, |front|) == Potential(s, m, front, |front|)
  {
    PositionsDoNotMatter(s, Seek(s, i, o), m, front);
  }

  /** Counters, letters and potential do not depend on the consumer's positions. */
  lemma PositionsDoNotMatter(s: World, t: World, m: nat, front: seq<nat>)
    requires t == s.(parts := t.parts) && |t.parts| == |s.parts|
    requires forall i | 0 <= i < |s.parts| ::
               && t.parts[i].log == s.parts[i].log
               && t.parts[i].topic == s.parts[i].topic && t.parts[i].number == s.parts[i].number
    requires Booked(s, m, front)
    ensures Booked(t, m, front) && Potential(t, m, front, |front|) == Potential(s, m, front, |front|)
  {
    hide Potential;
    forall r | r in t.attempts ensures exists i :: 0 <= i < |front| && AtFront(t, front, i, r) {
      var i :| 0 <= i < |front| && AtFront(s, front, i, r);
      assert AtFront(t, front, i, r);
    }
    forall i, o: nat | 0 <= i < |front| && front[i] <= o ensures FailuresAt(t, i, o) == AttemptsAt(t, i, o) {
      assert FailuresAt(s, i, o) == AttemptsAt(s, i, o);
    }
    forall k | s.letterBase <= k < |s.letters| ensures Accounted(t, m, front, t.letters[k]) {
      assert Accounted(s, m, front, s.letters[k]);
      var i :| 0 <= i < |front| && LetterAccounted(s, m, front, s.letters[k], i);
      assert LetterAccounted(t, m, front, t.letters[k], i);
    }
    if |front| > 0 {
      assert forall j | 0 <= j < |front| :: Term(t, m, front, j) == Term(s, m, front, j);
      PotentialChange(s, t, m, front, front, 0, |front|);
    } else {
      SumOfNothing(s, m, front);
      SumOfNothing(t, m, front);
    }
  }

  lemma SumOfNothing(s: World, m: nat, front: seq<nat>)
    requires |front| == |s.parts| == 0
    ensures Potential(s, m, front, 0) == 0
  {
  }

  lemma {:induction false} PassIsBooked(s: World, m: nat, front: seq<nat>, i: nat, offset: nat, outcomes: seq<Outcome>)
    requires m >= 1 && DistinctParts(s) && Booked(s, m, front)
    requires i < |front| == |s.parts| && offset == front[i] && offset + |outcomes| <= |s.parts[i].log|
    ensures var p := DeliverFrom(s, m, i, offset, outcomes);
            var front' := FrontAfter(front, i, offset, |outcomes|, p);
            && LettersCarry(p.world, m)
            && (!p.end.Aborted? ==> Booked(p.world, m, front'))
            && (!p.end.Aborted? ==> Potential(p.world, m, front', |front|) <= Potential(s, m, front, |front|))
            && (!p.end.Aborted? && outcomes != [] ==>
              Potential(p.world, m, front', |front|) < Potential(s, m, front, |front|))
    decreases |outcomes|
  {
    hide ProcessWithRetry, Booked, Potential, LettersCarry;
    BookedLetters(s, m, front);
    var p := DeliverFrom(s, m, i, offset, outcomes);
    if outcomes == [] {
      assert FrontAfter(front, i, offset, 0, p) == front;
    } else {
      var c := ProcessWithRetry(s, m, s.Key(i, offset), s.parts[i].log[offset], outcomes[0]);
      CallIsBooked(s, m, front, i, outcomes[0]);
      BookedCounters(s, m, front);
      CallSpends(s, m, front, i, outcomes[0]);
      match c.verdict
      case Settled =>
        var next := front[i := offset + 1];
        PassIsBooked(c.world, m, next, i, offset + 1, outcomes[1..]);
        assert FrontAfter(next, i, offset + 1, |outcomes| - 1, p) == FrontAfter(front, i, offset, |outcomes|, p);
      case Pending =>
        if !outcomes[0].seekFails {
          SeekKeepsBooks(c.world, m, front, i, offset);
          assert FrontAfter(front, i, offset, |outcomes|, p) == front;
          BookedLetters(p.world, m, front);
        }
      case Escaped =>
    }
  }

  lemma BookedLetters(s: World, m: nat, front: seq<nat>)
    requires Booked(s, m, front)
    ensures LettersCarry(s, m)
  {
  }

  lemma BookedCounters(s: World, m: nat, front: seq<nat>)
    requires Booked(s, m, front)
    ensures CountersAt(s, m, front)
  {
  }

  /** Records a batch brings in all. */
  function Delivered(ds: seq<Delivery>): nat {
    if ds == [] then 0 else |ds[0].outcomes| + Delivered(ds[1..])
  }

  lemma {:induction false} DrainIsBooked(s: World, m: nat, ds: seq<Delivery>, any: bool, failed: bool, front: seq<nat>)
    requires m >= 1 && DistinctParts(s) && Booked(s, m, front) && Fronts(s, ds, front)
    ensures var it := DrainBatches(s, m, ds, any, failed);
            var front' := Positions(it.world);
            && LettersCarry(it.world, m)
            && (!it.end.Raises? ==> Booked(it.world, m, front'))
            && (!it.end.Raises? ==> Potential(it.world, m, front', |front'|) <= Potential(s, m, front, |front|))
            && (!it.end.Raises? && Delivered(ds) > 0 ==>
              Potential(it.world, m, front', |front'|) < Potential(s, m, front, |front|))
    decreases |ds|
  {
    hide DrainBatches, DeliverFrom, Booked, Potential, LettersCarry, Fronts;
    FrontsInRange(s, ds, front);
    if ds == [] {
      DrainNothing(s, m, ds, any, failed);
      BookedLetters(s, m, front);
    } else {
      var d := ds[0];
      var p := DeliverFrom(s, m, d.index, d.offset, d.outcomes);
      DrainByOne(s, m, ds, any, failed);
      FirstPassIsBooked(s, m, ds, front);
      if !p.end.Aborted? {
        var front' := front[d.index := p.world.parts[d.index].position];
        DrainIsBooked(p.world, m, ds[1..], AnyAfter(any, d, p), failed || p.end.Rewound?, front');
      }
    }
  }

  lemma FrontsInRange(s: World, ds: seq<Delivery>, front: seq<nat>)
    requires Fronts(s, ds, front)
    ensures InRange(s, ds) && |front| == |s.parts| && (ds == [] ==> front == Positions(s))
  {
  }

  lemma FirstPassIsBooked(s: World, m: nat, ds: seq<Delivery>, front: seq<nat>)
    requires m >= 1 && DistinctParts(s) && Booked(s, m, front) && Fronts(s, ds, front) && ds != []
    ensures var d := ds[0];
            var p := DeliverFrom(s, m, d.index, d.offset, d.outcomes);
            && LettersCarry(p.world, m)
            && (!p.end.Aborted? ==>
                  var front' := front[d.index := p.world.parts[d.index].position];
                  && DistinctParts(p.world) && Booked(p.world, m, front') && Fronts(p.world, ds[1..], front')
                  && Potential(p.world, m, front', |front'|) <= Potential(s, m, front, |front|)
                  && (d.outcomes != [] ==> Potential(p.world, m, front', |front'|) < Potential(s, m, front, |front|)))
  {
    hide DeliverFrom, Booked, Potential, LettersCarry;
    var d := ds[0];
    var p := DeliverFrom(s, m, d.index, d.offset, d.outcomes);
    PassIsBooked(s, m, front, d.index, d.offset, d.outcomes);
    if !p.end.Aborted? {
      FrontsMove(s, m, ds, front);
      var front' := front[d.index := p.world.parts[d.index].position];
      assert FrontAfter(front, d.index, d.offset, |d.outcomes|, p) == front';
    }
  }

  // ------------------------------------------------------------------ runs: the books

  /** The books at a loop head. */
  ghost predicate BooksBalance(s: World, m: nat) {
    Booked(s, m, Positions(s))
  }

  lemma TurnIsBooked(s: World, m: nat, ds: seq<Delivery>)
    requires m >= 1 && WellFormed(s) && BooksBalance(s, m) && Pollable(s, ds)
    ensures LettersCarry(Iterate(s, m, ds).world, m)
    ensures !Iterate(s, m, ds).end.Raises? ==>
              var t := Iterate(s, m, ds).world;
              && BooksBalance(t, m)
              && Potential(t, m, Positions(t), |t.parts|) <= Potential(s, m, Positions(s), |s.parts|)
              && (Delivered(ds) > 0 ==>
                Potential(t, m, Positions(t), |t.parts|) < Potential(s, m, Positions(s), |s.parts|))
  {
    hide DrainBatches, Potential, Booked;
    var s1 := Advance(s, ds);
    PollFronts(s, ds);
    PositionsDoNotMatter(s, s1, m, Positions(s));
    DrainIsBooked(s1, m, ds, false, false, Positions(s));
  }

  lemma CleanBooks(s: World, m: nat)
    requires s.attempts == map[] && s.failed == multiset{} && s.letterBase == |s.letters| && LettersCarry(s, m)
    ensures BooksBalance(s, m)
  {
  }

  lemma AppendKeepsBooks(s: World, t: World, m: nat, i: nat, v: Value)
    requires BooksBalance(s, m) && i < |s.parts|
    requires t == s.(parts := s.parts[i := s.parts[i].(log := s.parts[i].log + [v])])
    ensures BooksBalance(t, m)
  {
    var front := Positions(s);
    assert Positions(t) == front;
    forall r | r in t.attempts ensures exists j :: 0 <= j < |front| && AtFront(t, front, j, r) {
      var j :| 0 <= j < |front| && AtFront(s, front, j, r);
      assert AtFront(t, front, j, r);
    }
    forall j, o: nat | 0 <= j < |front| && front[j] <= o ensures FailuresAt(t, j, o) == AttemptsAt(t, j, o) {
      assert FailuresAt(s, j, o) == AttemptsAt(s, j, o);
    }
    forall k | s.letterBase <= k < |s.letters| ensures Accounted(t, m, front, t.letters[k]) {
      assert Accounted(s, m, front, s.letters[k]);
      var j :| 0 <= j < |front| && LetterAccounted(s, m, front, s.letters[k], j);
      assert LetterAccounted(t, m, front, t.letters[k], j);
    }
  }

  lemma StepIsBooked(s: World, m: nat, step: Step)
    requires m >= 1 && WellFormed(s) && BooksBalance(s, m) && Enabled(s, step) && !Escapes(s, m, step)
    ensures BooksBalance(Apply(s, m, step), m)
  {
    hide Iterate, Booked, Potential;
    var t := Apply(s, m, step);
    match step
    case Poll(ds, commit) =>
      TurnIsBooked(s, m, ds);
      var u := Iterate(s, m, ds).world;
      if t != u {
        PositionsDoNotMatter(u, t, m, Positions(u));
        assert Positions(t) == Positions(u);
      }
    case Crash(ds) =>
      TurnIsBooked(s, m, ds);
      TurnShape(s, m, ds);
      CleanBooks(t, m);
    case Append(i, v) =>
      AppendKeepsBooks(s, t, m, i, v);
  }

  /** At every loop head of a run in which nothing escapes, crashes included: the
      attempts map holds at most the current position of each partition, with a
      count in 1..m-1 that equals the failed calls of this process; every dead
      letter reports m attempts, and those of this process came after exactly m
      failed calls, carry the record's own value, and name a record only once. */
  lemma {:induction false} BooksBalanceOnEveryRun(s: World, m: nat, steps: seq<Step>, t: World)
    requires m >= 1 && Fresh(s) && LettersCarry(s, m) && Run(s, m, steps, t) && NoEscape(s, m, steps)
    ensures BooksBalance(t, m)
  {
    CleanBooks(s, m);
    BooksBalanceFrom(s, m, steps, t);
  }

  lemma {:induction false} BooksBalanceFrom(s: World, m: nat, steps: seq<Step>, t: World)
    requires m >= 1 && WellFormed(s) && BooksBalance(s, m) && Run(s, m, steps, t) && NoEscape(s, m, steps)
    ensures BooksBalance(t, m) && WellFormed(t)
    decreases |steps|
  {
    hide Apply, BooksBalance;
    if steps != [] {
      StepIsBooked(s, m, steps[0]);
      StepShape(s, m, steps[0]);
      BooksBalanceFrom(Apply(s, m, steps[0]), m, steps[1..], t);
    }
  }

  // ------------------------------------------------------------------ runs: progress

  /** What is left to do at a loop head. */
  ghost function WorkLeft(s: World, m: nat): int {
    Potential(s, m, Positions(s), |s.parts|)
  }

  ghost predicate Delivers(step: Step) {
    step.Poll? && Delivered(step.ds) > 0
  }

  lemma PollSpends(s: World, m: nat, step: Step)
    requires m >= 1 && WellFormed(s) && BooksBalance(s, m) && Enabled(s, step) && step.Poll? && !Escapes(s, m, step)
    ensures WorkLeft(Apply(s, m, step), m) <= WorkLeft(s, m)
    ensures Delivers(step) ==> WorkLeft(Apply(s, m, step), m) < WorkLeft(s, m)
  {
    hide Iterate, Booked, Potential;
    var t, u := Apply(s, m, step), Iterate(s, m, step.ds).world;
    TurnIsBooked(s, m, step.ds);
    if t != u {
      PositionsDoNotMatter(u, t, m, Positions(u));
      assert Positions(t) == Positions(u);
    }
  }

  /** How many turns of a run delivered anything. */
  ghost function Deliveries(steps: seq<Step>): nat {
    if steps == [] then 0 else (if Delivers(steps[0]) then 1 else 0) + Deliveries(steps[1..])
  }

  lemma {:induction false} TurnsAreBounded(s: World, m: nat, steps: seq<Step>, t: World)
    requires m >= 1 && WellFormed(s) && BooksBalance(s, m) && Run(s, m, steps, t) && NoEscape(s, m, steps)
    requires forall k | 0 <= k < |steps| :: steps[k].Poll?
    ensures WellFormed(t) && BooksBalance(t, m) && Deliveries(steps) + WorkLeft(t, m) <= WorkLeft(s, m)
    decreases |steps|
  {
    hide Apply, Booked, Potential, Enabled, Delivers;
    if steps != [] {
      StepIsBooked(s, m, steps[0]);
      StepShape(s, m, steps[0]);
      PollSpends(s, m, steps[0]);
      assert forall k | 0 <= k < |steps[1..]| :: steps[1..][k] == steps[k + 1];
      TurnsAreBounded(Apply(s, m, steps[0]), m, steps[1..], t);
    }
  }

  /** Nothing is left to do exactly when every log is consumed. */
  lemma NoWorkIsTheEnd(s: World, m: nat)
    requires m >= 1 && WellFormed(s) && BooksBalance(s, m)
    ensures WorkLeft(s, m) >= 0 && (WorkLeft(s, m) == 0 ==> AtTheEnd(s))
  {
    hide Booked, Potential, Backed;
    BookedCounters(s, m, Positions(s));
    PotentialIsNatural(s, m, Positions(s), |s.parts|);
    if i :| 0 <= i < |s.parts| && s.parts[i].position < |s.parts[i].log| {
      assert Positions(s)[i] < |s.parts[i].log|;
    }
  }

  ghost function Backlog(s: World, n: nat): int
    requires n <= |s.parts|
  {
    if n == 0 then 0 else Backlog(s, n - 1) + (|s.parts[n - 1].log| - s.parts[n - 1].position)
  }

  lemma {:induction false} FreshWork(s: World, m: nat, n: nat)
    requires n <= |s.parts| && s.attempts == map[]
    ensures Potential(s, m, Positions(s), n) == Backlog(s, n) * m
    decreases n
  {
    if n > 0 {
      FreshWork(s, m, n - 1);
      var left := |s.parts[n - 1].log| - s.parts[n - 1].position;
      assert Backlog(s, n) * m == Backlog(s, n - 1) * m + left * m;
    }
  }

  // ------------------------------------------------------- runs: drained is committed

  ghost predicate AtTheEnd(s: World) {
    forall i | 0 <= i < |s.parts| :: s.parts[i].position == |s.parts[i].log|
  }

  ghost predicate AllCommitted(s: World) {
    forall i | 0 <= i < |s.parts| :: s.parts[i].committed == s.parts[i].position
  }

  /** A turn that ends asleep left some partition rewound. */
  lemma {:induction false} AsleepIsNotDone(
    s: World, m: nat, ds: seq<Delivery>, any: bool, failed: bool, front: seq<nat>, w: nat)
    requires Fronts(s, ds, front)
    requires failed ==> w < |s.parts| && s.parts[w].position < |s.parts[w].log|
    requires failed ==> forall k | 0 <= k < |ds| :: ds[k].index != w
    ensures DrainBatches(s, m, ds, any, failed).end.Sleeps? ==> !AtTheEnd(DrainBatches(s, m, ds, any, failed).world)
    decreases |ds|
  {
    hide DeliverFrom;
    if ds != [] {
      var d := ds[0];
      var p := DeliverFrom(s, m, d.index, d.offset, d.outcomes);
      if !p.end.Aborted? {
        FrontsMove(s, m, ds, front);
        var front' := front[d.index := p.world.parts[d.index].position];
        var w' := if p.end.Rewound? then d.index else w;
        assert forall k | 0 <= k < |ds[1..]| :: ds[1..][k] == ds[k + 1];
        AsleepIsNotDone(p.world, m, ds[1..], AnyAfter(any, d, p), failed || p.end.Rewound?, front', w');
      }
    }
  }

  /** A turn that ends idle was given nothing. */
  lemma {:induction false} IdleIsEmpty(s: World, m: nat, ds: seq<Delivery>, any: bool, failed: bool)
    requires InRange(s, ds) && DrainBatches(s, m, ds, any, failed).end.Idles?
    ensures !any && !failed && Delivered(ds) == 0 && DrainBatches(s, m, ds, any, failed).world == s
    decreases |ds|
  {
    hide DeliverFrom;
    if ds != [] {
      var d := ds[0];
      var p := DeliverFrom(s, m, d.index, d.offset, d.outcomes);
      NothingToDeliver(s, m, d);
      IdleIsEmpty(p.world, m, ds[1..], AnyAfter(any, d, p), failed || p.end.Rewound?);
    }
  }

  lemma NothingToDeliver(s: World, m: nat, d: Delivery)
    requires d.index < |s.parts| && d.offset + |d.outcomes| <= |s.parts[d.index].log|
    ensures d.outcomes == [] ==> DeliverFrom(s, m, d.index, d.offset, d.outcomes) == Pass(s, Drained)
  {
  }

  lemma DrainingTurnCommits(s: World, m: nat, step: Step)
    requires WellFormed(s) && Enabled(s, step) && !Escapes(s, m, step) && (step.Poll? ==> !step.commit.Refused?)
    requires AtTheEnd(s) ==> AllCommitted(s)
    ensures AtTheEnd(Apply(s, m, step)) ==> AllCommitted(Apply(s, m, step))
  {
    hide DrainBatches;
    var t := Apply(s, m, step);
    match step
    case Poll(ds, commit) =>
      PollFronts(s, ds);
      AsleepIsNotDone(Advance(s, ds), m, ds, false, false, Positions(s), 0);
      if Iterate(s, m, ds).end.Idles? {
        IdleIsEmpty(Advance(s, ds), m, ds, false, false);
        IdlePoll(s, ds);
      }
    case Crash(ds) =>
    case Append(i, v) =>
      assert t.parts[i].position == s.parts[i].position;
  }

  lemma {:induction false} DeliveredIsZero(ds: seq<Delivery>, k: nat)
    requires Delivered(ds) == 0 && k < |ds|
    ensures ds[k].outcomes == []
    decreases |ds|
  {
    if k > 0 { DeliveredIsZero(ds[1..], k - 1); }
  }

  lemma IdlePoll(s: World, ds: seq<Delivery>)
    requires Pollable(s, ds) && Delivered(ds) == 0
    ensures Advance(s, ds) == s
  {
    hide Advance;
    AdvanceReaches(s, ds);
    var t := Advance(s, ds);
    forall i | 0 <= i < |s.parts| ensures t.parts[i] == s.parts[i] {
      if k :| 0 <= k < |ds| && ds[k].index == i {
        DeliveredIsZero(ds, k);
      }
    }
    assert t.parts == s.parts;
  }

  /** On a run in which nothing escapes and no commit is refused, a consumer that
      has reached the end of every log has committed the end of every log. */
  lemma {:induction false} DrainedIsCommitted(s: World, m: nat, steps: seq<Step>, t: World)
    requires WellFormed(s) && (AtTheEnd(s) ==> AllCommitted(s)) && Run(s, m, steps, t) && NoEscape(s, m, steps)
    requires forall k | 0 <= k < |steps| && steps[k].Poll? :: !steps[k].commit.Refused?
    ensures AtTheEnd(t) ==> AllCommitted(t)
    decreases |steps|
  {
    hide Apply;
    if steps != [] {
      DrainingTurnCommits(s, m, steps[0]);
      StepShape(s, m, steps[0]);
      assert forall k | 0 <= k < |steps[1..]| :: steps[1..][k] == steps[k + 1];
      DrainedIsCommitted(Apply(s, m, steps[0]), m, steps[1..], t);
    }
  }

  /** Progress: whatever the record outcomes, batch sizes and idle turns, a worker
      that starts with N records to consume has at most N * m turns that deliver
      anything; after that many every log is consumed, and its end is committed
      unless a commit was refused. */
  lemma BacklogDrainsInTime(s: World, m: nat, steps: seq<Step>, t: World)
    requires m >= 1 && Fresh(s) && LettersCarry(s, m) && Run(s, m, steps, t) && NoEscape(s, m, steps)
    requires forall k | 0 <= k < |steps| :: steps[k].Poll?
    ensures Deliveries(steps) <= Backlog(s, |s.parts|) * m
    ensures Deliveries(steps) == Backlog(s, |s.parts|) * m ==> AtTheEnd(t)
    ensures AtTheEnd(t) && (forall k | 0 <= k < |steps| :: !steps[k].commit.Refused?) ==> AllCommitted(t)
  {
    hide Run, NoEscape, Booked, Potential, Backed;
    CleanBooks(s, m);
    TurnsAreBounded(s, m, steps, t);
    FreshWork(s, m, |s.parts|);
    NoWorkIsTheEnd(t, m);
    if forall k | 0 <= k < |steps| :: !steps[k].commit.Refused? {
      DrainedIsCommitted(s, m, steps, t);
    }
  }
}
