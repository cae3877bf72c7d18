/** The worker itself, as the source writes it: fields updated in place and a
    polling turn of two nested loops with flags, each method proved against its
    step of EventLog. The environment's choices are parameters. */
module KafkaWorker {
  import opened DeadLetterIds
  import opened RemoteEffects
  import L = EventLog
  import KafkaSafety
  import KafkaCommits
  import KafkaCalls

  lemma PrefixInRange(s: L.World, ds: seq<L.Delivery>, k: nat)
    requires L.InRange(s, ds) && k <= |ds|
    ensures L.InRange(s, ds[..k])
  {
    assert forall j | 0 <= j < k :: ds[..k][j] == ds[j];
  }

  lemma AdvanceByOne(s: L.World, ds: seq<L.Delivery>, k: nat)
    requires L.InRange(s, ds) && k < |ds|
    ensures L.InRange(s, ds[..k]) && L.InRange(s, ds[..k + 1])
    ensures L.Advance(s, ds[..k + 1]) == L.Seek(L.Advance(s, ds[..k]), ds[k].index, ds[k].offset + |ds[k].outcomes|)
  {
    hide L.Advance;
    PrefixInRange(s, ds, k);
    PrefixInRange(s, ds, k + 1);
    assert ds[..k + 1][..k] == ds[..k] && ds[..k + 1][k] == ds[k];
    L.AdvanceSnoc(s, ds[..k + 1]);
  }

  lemma AdvanceByNone(s: L.World, ds: seq<L.Delivery>)
    ensures L.InRange(s, ds[..0]) && L.Advance(s, ds[..0]) == s
  {
    assert ds[..0] == [];
  }

  /** What a turn keeps, raising or not. */
  lemma TurnKeeps(s: L.World, m: nat, ds: seq<L.Delivery>, commit: Effect)
    requires L.WellFormed(s) && L.Pollable(s, ds)
    ensures var t := L.PollOnce(s, m, ds, commit);
            && L.WellFormed(t)
            && (!L.Iterate(s, m, ds).end.Raises? && L.GapFree(s) ==> L.GapFree(t) && L.Safe(t))
  {
    hide L.Iterate, L.GapFree, L.Safe, L.WellFormed;
    var step := L.Poll(ds, commit);
    KafkaSafety.StepShape(s, m, step);
    if !L.Iterate(s, m, ds).end.Raises? && L.GapFree(s) {
      KafkaSafety.StepKeepsGapFree(s, m, step);
      KafkaSafety.GapFreeIsSafe(L.PollOnce(s, m, ds, commit));
    }
  }

  class KafkaEventWorker {
    const maxAttempts: nat
    var attempts: map<RecordKey, nat>

    // the consumer, the event store and the dead-letter topic it talks to
    var parts: seq<L.Partition>
    var store: map<string, L.Entry>
    var letters: seq<L.Letter>

    // history
    ghost var writes: seq<L.Write>
    ghost var filings: set<RecordKey>
    ghost var failed: multiset<RecordKey>
    ghost var letterBase: nat

    ghost function View(): L.World
      reads this
    {
      L.World(parts, attempts, store, letters, writes, filings, failed, letterBase)
    }

    /** A new process over existing partitions, store and dead-letter topic. */
    constructor (parts: seq<L.Partition>, store: map<string, L.Entry>, letters: seq<L.Letter>,
                 maxProcessingAttempts: int, ghost writes: seq<L.Write>, ghost filings: set<RecordKey>)
      ensures maxProcessingAttempts >= 1 ==> maxAttempts == maxProcessingAttempts
      ensures maxProcessingAttempts < 1 ==> maxAttempts == 1
      ensures View() == L.Restart(L.World(parts, map[], store, letters, writes, filings, multiset{}, 0))
      ensures L.WellFormed(L.World(parts, map[], store, letters, writes, filings, multiset{}, 0)) ==> L.Fresh(View())
    {
      this.maxAttempts := if maxProcessingAttempts > 1 then maxProcessingAttempts else 1;
      this.attempts := map[];
      this.parts := seq(|parts|, i requires 0 <= i < |parts| => parts[i].(position := parts[i].committed));
      this.store := store;
      this.letters := letters;
      this.writes := writes;
      this.filings := filings;
      this.failed := multiset{};
      this.letterBase := |letters|;
      new;
      ghost var before := L.World(parts, map[], store, letters, writes, filings, multiset{}, 0);
      if L.WellFormed(before) { KafkaSafety.RestartResumes(before); }
    }

    method Save(id: string, r: RecordKey, v: L.Value, effect: Effect) returns (ok: bool)
      modifies this
      ensures L.Attempt(View(), ok) == L.SaveEvent(old(View()), id, r, v, effect)
    {
      ok := false;
      if v.storable && !effect.Refused? {
        store := store[id := L.Entry(L.Processed, r, 1)];
        writes := writes + [L.Write(id, r)];
        ok := effect.Applied?;
      }
    }

    method ProcessRecord(r: RecordKey, v: L.Value, o: L.Outcome) returns (ok: bool)
      modifies this
      ensures L.Attempt(View(), ok) == L.ProcessRecord(old(View()), r, v, o)
      ensures KafkaCalls.Attempted(old(View()), View(), ok, r, v, o)
    {
      hide KafkaCalls.Attempted;
      KafkaCalls.AttemptStoresOnce(View(), r, v, o);
      store := store + o.foreign;
      if v.envelope.Invalid? || o.lookupFails {
        return false;
      }
      if v.envelope.Identified? {
        if v.envelope.eventId in store {
          return true;
        }
        ok := Save(v.envelope.eventId, r, v, o.save);
      } else {
        ok := Save(o.generatedId, r, v, o.save);
      }
    }

    method DeadLetter(r: RecordKey, v: L.Value, count: nat, o: L.Outcome) returns (ok: bool)
      modifies this
      ensures L.Attempt(View(), ok) == L.DeadLetter(old(View()), r, v, count, o)
      ensures KafkaCalls.Lettered(old(View()), View(), ok, r, v, count, o)
    {
      hide KafkaCalls.Lettered;
      KafkaCalls.LetterGoesFirst(View(), r, v, count, o);
      if v.letter.Unsendable? || o.publish.Refused? {
        return false;
      }
      letters := letters + [L.Letter(DeadLetterId(r), r, v, count)];
      if o.publish.LostReply? || v.letter.Unfileable? || o.file.Refused? {
        return false;
      }
      store := store[DeadLetterId(r) := L.Entry(L.DeadLettered, r, count)];
      filings := filings + {r};
      ok := o.file.Applied?;
    }

    method ProcessRecordWithRetry(r: RecordKey, v: L.Value, o: L.Outcome) returns (verdict: L.Verdict)
      modifies this
      ensures L.Ruling(View(), verdict) == L.ProcessWithRetry(old(View()), maxAttempts, r, v, o)
    {
      hide L.ProcessRecord, L.DeadLetter;
      var ok := ProcessRecord(r, v, o);
      if ok {
        attempts := attempts - {r};
        return L.Settled;
      }
      var count := (if r in attempts then attempts[r] else 0) + 1;
      attempts := attempts[r := count];
      failed := failed + multiset{r};
      if count < maxAttempts {
        return L.Pending;
      }
      ok := DeadLetter(r, v, count, o);
      if !ok {
        return L.Escaped;
      }
      attempts := attempts - {r};
      return L.Settled;
    }

    /** `poll`: the position of every delivered partition moves past its records. */
    method PollRecords(ds: seq<L.Delivery>)
      requires L.InRange(View(), ds)
      modifies this
      ensures View() == L.Advance(old(View()), ds)
    {
      hide L.Advance;
      var k := 0;
      assert L.Advance(old(View()), ds[..0]) == old(View()) by { AdvanceByNone(old(View()), ds); }
      while k < |ds|
        invariant 0 <= k <= |ds|
        invariant L.InRange(old(View()), ds[..k])
        invariant View() == L.Advance(old(View()), ds[..k])
      {
        AdvanceByOne(old(View()), ds, k);
        parts := parts[ds[k].index := parts[ds[k].index].(position := ds[k].offset + |ds[k].outcomes|)];
        k := k + 1;
      }
      assert ds[..k] == ds;
    }

    method Seek(i: nat, offset: nat)
      requires i < |parts|
      modifies this`parts
      ensures View() == L.Seek(old(View()), i, offset)
    {
      parts := parts[i := parts[i].(position := offset)];
    }

    method CommitPositions()
      modifies this`parts
      ensures View() == L.Commit(old(View()))
    {
      var k := 0;
      while k < |parts|
        invariant 0 <= k <= |parts| == |old(parts)|
        invariant forall i | 0 <= i < k :: parts[i] == old(parts)[i].(committed := old(parts)[i].position)
        invariant forall i | k <= i < |parts| :: parts[i] == old(parts)[i]
      {
        parts := parts[k := parts[k].(committed := parts[k].position)];
        k := k + 1;
      }
      assert parts == L.Commit(old(View())).parts;
    }

    /** The loop over one partition's records, with the seek that ends it early. */
    method WorkOff(d: L.Delivery) returns (end: L.PassEnd, handledAny: bool)
      requires d.index < |parts| && d.offset + |d.outcomes| <= |parts[d.index].log|
      modifies this
      ensures L.Pass(View(), end) == L.DeliverFrom(old(View()), maxAttempts, d.index, d.offset, d.outcomes)
      ensures end.Drained? ==> handledAny == (d.outcomes != [])
    {
      hide L.ProcessWithRetry;
      handledAny := false;
      var j := 0;
      while j < |d.outcomes|
        invariant 0 <= j <= |d.outcomes| && parts == old(parts)
        invariant L.DeliverFrom(old(View()), maxAttempts, d.index, d.offset, d.outcomes)
               == L.DeliverFrom(View(), maxAttempts, d.index, d.offset + j, d.outcomes[j..])
        invariant handledAny == (j > 0)
      {
        assert d.outcomes[j..][1..] == d.outcomes[j + 1..];
        var offset := d.offset + j;
        var verdict := ProcessRecordWithRetry(parts[d.index].KeyAt(offset), parts[d.index].log[offset], d.outcomes[j]);
        if verdict.Escaped? {
          return L.Aborted, handledAny;
        }
        if verdict.Pending? {
          if d.outcomes[j].seekFails {
            return L.Aborted, handledAny;
          }
          Seek(d.index, offset);
          return L.Rewound, handledAny;
        }
        handledAny := true;
        j := j + 1;
      }
      end := L.Drained;
    }

    /** One turn of `_poll`. */
    method PollTurn(ds: seq<L.Delivery>, commit: Effect) returns (end: L.IterationEnd)
      requires L.WellFormed(View()) && L.Pollable(View(), ds)
      modifies this
      ensures View() == L.PollOnce(old(View()), maxAttempts, ds, commit)
      ensures end == L.Iterate(old(View()), maxAttempts, ds).end
      ensures L.WellFormed(View())
      ensures !end.Raises? && L.GapFree(old(View())) ==> L.GapFree(View()) && L.Safe(View())
      ensures KafkaCommits.CommitRule(old(View()), View(), ds, commit, end.Raises?)
    {
      hide L.DeliverFrom, L.DrainBatches, L.Advance, L.GapFree, L.Safe, L.WellFormed, KafkaCommits.CommitRule;
      KafkaCommits.TurnCommitsExactlyWhenDone(View(), maxAttempts, ds, commit);
      TurnKeeps(View(), maxAttempts, ds, commit);
      PollRecords(ds);
      ghost var start := View();
      var processedAny, batchFailed := false, false;
      ghost var cleanAny := false;
      var k := 0;
      assert ds[0..] == ds;
      while k < |ds|
        invariant 0 <= k <= |ds| && L.InRange(View(), ds[k..])
        invariant L.DrainBatches(start, maxAttempts, ds, false, false)
               == L.DrainBatches(View(), maxAttempts, ds[k..], cleanAny, batchFailed)
        invariant !batchFailed ==> processedAny == cleanAny
      {
        assert ds[k..][0] == ds[k] && ds[k..][1..] == ds[k + 1..];
        KafkaSafety.DrainByOne(View(), maxAttempts, ds[k..], cleanAny, batchFailed);
        var passEnd, handledAny := WorkOff(ds[k]);
        if passEnd.Aborted? {
          return L.Raises;
        }
        processedAny := processedAny || handledAny;
        batchFailed := batchFailed || passEnd.Rewound?;
        cleanAny := cleanAny || (passEnd.Drained? && ds[k].outcomes != []);
        k := k + 1;
      }
      KafkaSafety.DrainNothing(View(), maxAttempts, ds[k..], cleanAny, batchFailed);
      if processedAny && !batchFailed {
        if !commit.Refused? {
          CommitPositions();
        }
        end := L.Commits;
      } else {
        end := if batchFailed then L.Sleeps else L.Idles;
      }
    }
  }
}
