/** When a turn commits, told from the positions it leaves behind: exactly when it
    brought records and every partition it polled stands where the poll had moved it. */
module KafkaCommits {
  import opened RemoteEffects
  import opened EventLog
  import opened KafkaSafety

  /** The batch holds at least one record. */
  ghost predicate Brings(ds: seq<Delivery>) {
    exists k :: 0 <= k < |ds| && ds[k].outcomes != []
  }

  /** Every polled partition stands at the end of its delivery: none was rewound. */
  ghost predicate AtEnds(t: World, ds: seq<Delivery>) {
    forall k | 0 <= k < |ds| ::
      ds[k].index < |t.parts| && t.parts[ds[k].index].position == ds[k].offset + |ds[k].outcomes|
  }

  ghost predicate SameCommitted(s: World, t: World) {
    |t.parts| == |s.parts| && forall i | 0 <= i < |s.parts| :: t.parts[i].committed == s.parts[i].committed
  }

  /** All positions are committed if and only if the turn brought records, did not
      raise, left no partition rewound and had its commit answered; otherwise no
      committed offset changes. */
  ghost predicate CommitRule(s: World, t: World, ds: seq<Delivery>, commit: Effect, raised: bool) {
    && (!raised && Brings(ds) && AtEnds(t, ds) && !commit.Refused? ==>
          |t.parts| == |s.parts| && forall i | 0 <= i < |s.parts| :: t.parts[i].committed == t.parts[i].position)
    && (raised || !Brings(ds) || !AtEnds(t, ds) || commit.Refused? ==> SameCommitted(s, t))
  }

  // --------------------------------------------------------------------- one batch

  ghost predicate Unpolled(ds: seq<Delivery>, i: nat) {
    forall k | 0 <= k < |ds| :: ds[k].index != i
  }

  /** A pass moves nothing but the position of its own partition, and moves it back
      exactly when it ends rewound. */
  lemma PassEnds(s: World, m: nat, d: Delivery)
    requires d.index < |s.parts| && d.offset + |d.outcomes| <= |s.parts[d.index].log|
    requires s.parts[d.index].position == d.offset + |d.outcomes|
    ensures var p := DeliverFrom(s, m, d.index, d.offset, d.outcomes);
            && SameCommitted(s, p.world)
            && (forall i | 0 <= i < |s.parts| && i != d.index :: p.world.parts[i] == s.parts[i])
            && (p.end.Rewound? <==> p.world.parts[d.index].position < d.offset + |d.outcomes|)
            && (!p.end.Rewound? ==> p.world.parts == s.parts)
  {
    hide DeliverFrom;
  }

  /** The batches still to come do not touch this partition. */
  lemma {:induction false} DrainLeaves(s: World, m: nat, ds: seq<Delivery>, any: bool, failed: bool, i: nat)
    requires InRange(s, ds) && i < |s.parts| && Unpolled(ds, i)
    ensures var t := DrainBatches(s, m, ds, any, failed).world;
            |t.parts| == |s.parts| && t.parts[i] == s.parts[i]
    decreases |ds|
  {
    hide DrainBatches, DeliverFrom;
    if ds == [] {
      DrainNothing(s, m, ds, any, failed);
    } else {
      DrainByOne(s, m, ds, any, failed);
      var p := DeliverFrom(s, m, ds[0].index, ds[0].offset, ds[0].outcomes);
      assert ds[0].index != i;
      assert forall k | 0 <= k < |ds[1..]| :: ds[1..][k] == ds[k + 1];
      if !p.end.Aborted? {
        DrainLeaves(p.world, m, ds[1..], AnyAfter(any, ds[0], p), failed || p.end.Rewound?, i);
      }
    }
  }

  lemma {:induction false} DrainCommitsNothing(s: World, m: nat, ds: seq<Delivery>, any: bool, failed: bool)
    requires InRange(s, ds) && AtEnds(s, ds)
    ensures SameCommitted(s, DrainBatches(s, m, ds, any, failed).world)
    decreases |ds|
  {
    hide DrainBatches, DeliverFrom;
    if ds == [] {
      DrainNothing(s, m, ds, any, failed);
    } else {
      var d := ds[0];
      DrainByOne(s, m, ds, any, failed);
      PassEnds(s, m, d);
      var p := DeliverFrom(s, m, d.index, d.offset, d.outcomes);
      if !p.end.Aborted? {
        RestAtEnds(s, p.world, ds);
        DrainCommitsNothing(p.world, m, ds[1..], AnyAfter(any, d, p), failed || p.end.Rewound?);
      }
    }
  }

  lemma RestAtEnds(s: World, t: World, ds: seq<Delivery>)
    requires InRange(s, ds) && AtEnds(s, ds) && ds != [] && |t.parts| == |s.parts|
    requires forall i | 0 <= i < |s.parts| && i != ds[0].index :: t.parts[i] == s.parts[i]
    ensures AtEnds(t, ds[1..]) && Unpolled(ds[1..], ds[0].index)
  {
    assert forall k | 0 <= k < |ds[1..]| :: ds[1..][k] == ds[k + 1];
  }

  /** How a batch ends, from the positions it leaves. */
  ghost predicate EndsAsSeen(it: Iteration, ds: seq<Delivery>, any: bool, failed: bool) {
    && (it.end.Sleeps? <==> failed || !AtEnds(it.world, ds))
    && (it.end.Commits? <==> (any || Brings(ds)) && !failed && AtEnds(it.world, ds))
  }

  lemma AtEndsUnfolds(t: World, ds: seq<Delivery>)
    requires ds != []
    ensures AtEnds(t, ds) <==>
            && ds[0].index < |t.parts| && t.parts[ds[0].index].position == ds[0].offset + |ds[0].outcomes|
            && AtEnds(t, ds[1..])
    ensures Brings(ds) <==> ds[0].outcomes != [] || Brings(ds[1..])
  {
    assert forall k | 0 <= k < |ds[1..]| :: ds[1..][k] == ds[k + 1];
    if AtEnds(t, ds[1..]) {
      forall k | 1 <= k < |ds|
        ensures ds[k].index < |t.parts| && t.parts[ds[k].index].position == ds[k].offset + |ds[k].outcomes|
      {
        assert ds[1..][k - 1] == ds[k];
      }
    }
    if k :| 0 <= k < |ds| && ds[k].outcomes != [] {
      if k > 0 { assert ds[1..][k - 1].outcomes != []; }
    }
    if k :| 0 <= k < |ds[1..]| && ds[1..][k].outcomes != [] {
      assert ds[k + 1].outcomes != [];
    }
  }

  lemma {:induction false} DrainEnds(s: World, m: nat, ds: seq<Delivery>, any: bool, failed: bool)
    requires InRange(s, ds) && AtEnds(s, ds)
    ensures var it := DrainBatches(s, m, ds, any, failed);
            !it.end.Raises? ==> EndsAsSeen(it, ds, any, failed)
    decreases |ds|
  {
    hide DrainBatches, DeliverFrom, AtEnds, Brings;
    var it := DrainBatches(s, m, ds, any, failed);
    if ds == [] {
      DrainNothing(s, m, ds, any, failed);
      NothingBrought(it.world, ds);
    } else {
      var d := ds[0];
      var p := DeliverFrom(s, m, d.index, d.offset, d.outcomes);
      DrainByOne(s, m, ds, any, failed);
      AtEndsUnfolds(s, ds);
      PassEnds(s, m, d);
      if !p.end.Aborted? {
        RestAtEnds(s, p.world, ds);
        DrainEnds(p.world, m, ds[1..], AnyAfter(any, d, p), failed || p.end.Rewound?);
        DrainLeaves(p.world, m, ds[1..], AnyAfter(any, d, p), failed || p.end.Rewound?, d.index);
        AtEndsUnfolds(it.world, ds);
      }
    }
  }

  lemma NothingBrought(t: World, ds: seq<Delivery>)
    requires ds == []
    ensures AtEnds(t, ds) && !Brings(ds)
  {
  }

  lemma TurnCommitsExactlyWhenDone(s: World, m: nat, ds: seq<Delivery>, commit: Effect)
    requires Pollable(s, ds)
    ensures CommitRule(s, PollOnce(s, m, ds, commit), ds, commit, Iterate(s, m, ds).end.Raises?)
  {
    hide DrainBatches, Advance, Brings;
    var s1 := Advance(s, ds);
    AdvanceReaches(s, ds);
    DrainEnds(s1, m, ds, false, false);
    DrainCommitsNothing(s1, m, ds, false, false);
    SameEnds(Iterate(s, m, ds).world, PollOnce(s, m, ds, commit), ds);
  }

  lemma SameEnds(s: World, t: World, ds: seq<Delivery>)
    requires |t.parts| == |s.parts| && forall i | 0 <= i < |s.parts| :: t.parts[i].position == s.parts[i].position
    ensures AtEnds(s, ds) <==> AtEnds(t, ds)
  {
  }
}
