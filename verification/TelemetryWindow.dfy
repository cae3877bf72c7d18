/** The live telemetry window of the web client (web/src/App.tsx, `mergeTelemetry`):
    merge by id, newest first, capped. */
module TelemetryWindow {
  import opened StableSort

  datatype Telemetry = Telemetry(id: string, receivedAt: int, body: string)

  const CAP := 100

  /** `Map.set`: an existing id keeps its place, a new one goes last. */
  function Upsert(entries: seq<Telemetry>, r: Telemetry): seq<Telemetry> {
    if entries == [] then [r]
    else if entries[0].id == r.id then [r] + entries[1..]
    else [entries[0]] + Upsert(entries[1..], r)
  }

  function UpsertAll(entries: seq<Telemetry>, rs: seq<Telemetry>): seq<Telemetry> {
    if rs == [] then entries else Upsert(UpsertAll(entries, rs[..|rs| - 1]), rs[|rs| - 1])
  }

  function ByTime(r: Telemetry): int {
    r.receivedAt
  }

  function Newest(entries: seq<Telemetry>): seq<Telemetry> {
    var sorted := Sort(entries, ByTime);
    if |sorted| <= CAP then sorted else sorted[..CAP]
  }

  function Merge(current: seq<Telemetry>, incoming: seq<Telemetry>): seq<Telemetry> {
    Newest(UpsertAll(UpsertAll([], current), incoming))
  }

  method MergeTelemetry(current: seq<Telemetry>, incoming: seq<Telemetry>) returns (window: seq<Telemetry>)
    ensures window == Merge(current, incoming)
  {
    var records: seq<Telemetry> := [];
    for i := 0 to |current|
      invariant records == UpsertAll([], current[..i])
    {
      assert current[..i + 1][..i] == current[..i];
      records := Upsert(records, current[i]);
    }
    assert current[..|current|] == current;
    ghost var known := records;
    for i := 0 to |incoming|
      invariant records == UpsertAll(known, incoming[..i])
    {
      assert incoming[..i + 1][..i] == incoming[..i];
      records := Upsert(records, incoming[i]);
    }
    assert incoming[..|incoming|] == incoming;
    window := Newest(records);
  }

  // ------------------------------------------------------- the window, independently

  /** Records are immutable: an id stands for one record. */
  ghost predicate Immutable(all: set<Telemetry>) {
    forall a, b | a in all && b in all && a.id == b.id :: a == b
  }

  ghost function Elements(w: seq<Telemetry>): set<Telemetry> {
    set r | r in w
  }

  ghost predicate Distinct(w: seq<Telemetry>) {
    forall i, j | 0 <= i < j < |w| :: w[i] != w[j]
  }

  ghost predicate Falling(w: seq<Telemetry>) {
    forall i, j | 0 <= i < j < |w| :: w[i].receivedAt >= w[j].receivedAt
  }

  /** Newest records of a set, at most CAP of them, each once, newest first. Among
      records of one instant it leaves open which are taken, and in what order. */
  ghost predicate IsTop(w: seq<Telemetry>, all: set<Telemetry>) {
    && Distinct(w) && Falling(w) && Elements(w) <= all
    && |w| == (if |all| <= CAP then |all| else CAP)
    && forall r, x | r in all && r !in w && x in w :: x.receivedAt >= r.receivedAt
  }

  ghost predicate NewestFirst(w: seq<Telemetry>) {
    forall i, j | 0 <= i < j < |w| :: w[i].receivedAt > w[j].receivedAt
  }

  /** The newest records of a set, at most CAP of them, newest first. */
  ghost predicate IsWindow(w: seq<Telemetry>, all: set<Telemetry>) {
    && NewestFirst(w) && Elements(w) <= all
    && |w| == (if |all| <= CAP then |all| else CAP)
    && forall r, x | r in all && r !in w && x in w :: x.receivedAt > r.receivedAt
  }

  // ----------------------------------------------------------- what is merged, by id

  ghost predicate UniqueIds(entries: seq<Telemetry>) {
    forall i, j | 0 <= i < j < |entries| :: entries[i].id != entries[j].id
  }

  /** The last record to arrive under its id. */
  ghost predicate Latest(rs: seq<Telemetry>, r: Telemetry) {
    exists k :: 0 <= k < |rs| && rs[k] == r && forall j | k < j < |rs| :: rs[j].id != r.id
  }

  lemma {:induction false} UpsertMembers(entries: seq<Telemetry>, r: Telemetry)
    requires UniqueIds(entries)
    ensures UniqueIds(Upsert(entries, r))
    ensures forall x :: x in Upsert(entries, r) <==> x == r || (x in entries && x.id != r.id)
    decreases |entries|
  {
    if entries != [] {
      var e, rest := entries[0], entries[1..];
      assert entries == [e] + rest;
      assert forall x | x in rest :: x.id != e.id;
      if e.id != r.id {
        UpsertMembers(rest, r);
        var u := Upsert(rest, r);
        forall j | 0 <= j < |u| ensures u[j].id != e.id { assert u[j] in u; }
      }
    }
  }

  lemma LatestSnoc(rs: seq<Telemetry>, last: Telemetry, r: Telemetry)
    ensures Latest(rs + [last], r) <==> r == last || (Latest(rs, r) && r.id != last.id)
  {
    var all := rs + [last];
    if r == last { assert all[|rs|] == r; }
    if k :| 0 <= k < |rs| && rs[k] == r && forall j | k < j < |rs| :: rs[j].id != r.id {
      if r.id != last.id { assert all[k] == r; }
    }
    if k :| 0 <= k < |all| && all[k] == r && forall j | k < j < |all| :: all[j].id != r.id {
      if k < |rs| {
        assert all[|rs|] == last && rs[k] == r;
        forall j | k < j < |rs| ensures rs[j].id != r.id { assert all[j] == rs[j]; }
      }
    }
  }

  lemma {:induction false} UpsertAllIsLatest(rs: seq<Telemetry>)
    ensures UniqueIds(UpsertAll([], rs)) && forall r :: r in UpsertAll([], rs) <==> Latest(rs, r)
    decreases |rs|
  {
    if rs != [] {
      var front, last := rs[..|rs| - 1], rs[|rs| - 1];
      assert rs == front + [last];
      UpsertAllIsLatest(front);
      UpsertMembers(UpsertAll([], front), last);
      forall r ensures r in UpsertAll([], rs) <==> Latest(rs, r) { LatestSnoc(front, last, r); }
    }
  }

  lemma {:induction false} UpsertAllContinues(a: seq<Telemetry>, b: seq<Telemetry>)
    ensures UpsertAll(UpsertAll([], a), b) == UpsertAll([], a + b)
    decreases |b|
  {
    if b == [] {
      assert a + b == a;
    } else {
      UpsertAllContinues(a, b[..|b| - 1]);
      assert (a + b)[..|a + b| - 1] == a + b[..|b| - 1];
    }
  }

  /** Of several records with one id the last to arrive is shown, incoming ones after
      current ones; none is shown twice, and nothing else is shown. */
  lemma LastArrivalWins(current: seq<Telemetry>, incoming: seq<Telemetry>)
    ensures var w := Merge(current, incoming);
            && UniqueIds(w) && Falling(w) && |w| <= 100
            && (forall r | r in w :: Latest(current + incoming, r))
            && (|w| < 100 ==> forall r :: Latest(current + incoming, r) ==> r in w)
  {
    hide Sort, Latest, UpsertAll;
    var pool, all := UpsertAll(UpsertAll([], current), incoming), current + incoming;
    UpsertAllContinues(current, incoming);
    UpsertAllIsLatest(all);
    assert Distinct(pool);
    SortedSet(pool);
    var m, w := Sort(pool, ByTime), Merge(current, incoming);
    assert w <= m;
    forall r ensures r in m <==> Latest(all, r) { assert r in Elements(m) <==> r in Elements(pool); }
    forall i, j | 0 <= i < j < |w| ensures w[i].id != w[j].id {
      assert w[i] == m[i] && w[j] == m[j] && m[i] != m[j];
      assert m[i] in Elements(pool) && m[j] in Elements(pool);
    }
  }

  // ------------------------------------------------------------- merging keeps the top

  lemma {:induction false} UpsertElements(entries: seq<Telemetry>, r: Telemetry, all: set<Telemetry>)
    requires Immutable(all) && Elements(entries) <= all && r in all && Distinct(entries)
    ensures Elements(Upsert(entries, r)) == Elements(entries) + {r} && Distinct(Upsert(entries, r))
    decreases |entries|
  {
    if entries != [] {
      var e, rest := entries[0], entries[1..];
      assert entries == [e] + rest;
      ElementsCons(e, rest);
      if e.id == r.id {
        assert e == r;
      } else {
        UpsertElements(rest, r, all);
        ElementsCons(e, Upsert(rest, r));
      }
    }
  }

  lemma ElementsCons(e: Telemetry, rest: seq<Telemetry>)
    ensures Elements([e] + rest) == {e} + Elements(rest)
    ensures Distinct([e] + rest) <==> Distinct(rest) && e !in Elements(rest)
  {
    var w := [e] + rest;
    if Distinct(w) {
      forall k | 0 <= k < |rest| ensures rest[k] != e { assert w[0] != w[k + 1]; }
      forall i, j | 0 <= i < j < |rest| ensures rest[i] != rest[j] { assert w[i + 1] != w[j + 1]; }
    }
  }

  lemma {:induction false} UpsertAllElements(entries: seq<Telemetry>, rs: seq<Telemetry>, all: set<Telemetry>)
    requires Immutable(all) && Elements(entries) <= all && Elements(rs) <= all && Distinct(entries)
    ensures Elements(UpsertAll(entries, rs)) == Elements(entries) + Elements(rs) && Distinct(UpsertAll(entries, rs))
    decreases |rs|
  {
    if rs != [] {
      var front, last := rs[..|rs| - 1], rs[|rs| - 1];
      assert rs == front + [last];
      assert Elements(rs) == Elements(front) + {last};
      UpsertAllElements(entries, front, all);
      UpsertElements(UpsertAll(entries, front), last, all);
    } else {
      assert Elements(rs) == {};
    }
  }

  lemma {:induction false} DistinctCount(w: seq<Telemetry>)
    requires Distinct(w)
    ensures |Elements(w)| == |w|
    decreases |w|
  {
    if w != [] {
      var rest := w[1..];
      DistinctCount(rest);
      assert w == [w[0]] + rest;
      assert Elements(w) == {w[0]} + Elements(rest) && w[0] !in Elements(rest);
    } else {
      assert Elements(w) == {};
    }
  }

  lemma Repeated(m: seq<Telemetry>, i: nat, j: nat)
    requires i < j < |m| && m[i] == m[j]
    ensures multiset(m)[m[i]] >= 2
  {
    var a, b := m[..j], m[j..];
    assert m == a + b;
    assert a[i] == m[i] && b[0] == m[i];
    assert multiset(m) == multiset(a) + multiset(b);
    assert m[i] in multiset(a) && m[i] in multiset(b);
  }

  lemma {:induction false} OnceEach(w: seq<Telemetry>, r: Telemetry)
    requires Distinct(w)
    ensures multiset(w)[r] <= 1
    decreases |w|
  {
    if w != [] {
      assert w == [w[0]] + w[1..];
      OnceEach(w[1..], r);
      if w[0] == r { assert r !in w[1..]; }
    }
  }

  lemma SortedSet(entries: seq<Telemetry>)
    requires Distinct(entries)
    ensures var m := Sort(entries, ByTime);
            Falling(m) && Distinct(m) && Elements(m) == Elements(entries) && |m| == |entries|
  {
    hide Sort;
    var m := Sort(entries, ByTime);
    SortMembers(entries, ByTime);
    SortDescends(entries, ByTime);
    forall r ensures r in m <==> r in entries {
      assert r in multiset(m) <==> r in multiset(entries);
    }
    forall i, j | 0 <= i < j < |m| ensures m[i] != m[j] && m[i].receivedAt >= m[j].receivedAt {
      assert ByTime(m[i]) >= ByTime(m[j]);
      OnceEach(entries, m[i]);
      if m[i] == m[j] { Repeated(m, i, j); }
    }
  }

  /** The first CAP of a sorted pool are a top of everything, if the pool has what
      the old window kept and all that is new. */
  lemma FirstOfPoolIsTop(
    w: seq<Telemetry>, before: set<Telemetry>, m: seq<Telemetry>, top: seq<Telemetry>, all: set<Telemetry>)
    requires IsTop(w, before) && Falling(m) && Distinct(m)
    requires Elements(w) <= Elements(m) <= all && all == before + Elements(m)
    requires top == if |m| <= CAP then m else m[..CAP]
    ensures IsTop(top, all)
  {
    DistinctCount(w);
    DistinctCount(m);
    assert top <= m;
    forall r | r in Elements(top) ensures r in all { assert r in Elements(m); }
    SizeOfTop(w, before, Elements(m), all, |m|);
    forall r, x | r in all && r !in top && x in top ensures x.receivedAt >= r.receivedAt {
      if r in m {
        InPrefix(m, top, x, r);
      } else {
        OmittedIsOlder(w, before, m, top, x, r);
      }
    }
  }

  lemma OmittedIsOlder(
    w: seq<Telemetry>, before: set<Telemetry>, m: seq<Telemetry>, top: seq<Telemetry>, x: Telemetry, r: Telemetry)
    requires IsTop(w, before) && Falling(m) && Distinct(m) && Elements(w) <= Elements(m)
    requires top == if |m| <= CAP then m else m[..CAP]
    requires r in before && r !in m && x in top
    ensures x.receivedAt >= r.receivedAt
  {
    assert r !in Elements(w);
    if x !in w {
      FullTop(w, before, r);
      DistinctCount(w);
      DistinctCount(m);
      DistinctCount(top);
      SmallerSet(Elements(w), Elements(m));
      var y := Displaced(Elements(w), Elements(top), x);
      assert y in Elements(m) && y in w;
      InPrefix(m, top, x, y);
    }
  }

  /** A top that leaves something out is full. */
  lemma FullTop(w: seq<Telemetry>, all: set<Telemetry>, r: Telemetry)
    requires IsTop(w, all) && r in all && r !in w
    ensures |w| == CAP
  {
    DistinctCount(w);
    if |all| <= CAP {
      SameSize(Elements(w), all);
    }
  }

  lemma SameSize<T>(a: set<T>, b: set<T>)
    requires a <= b && |a| == |b|
    ensures a == b
  {
    assert b == a + (b - a);
    assert |b| == |a| + |b - a|;
  }

  lemma SmallerSet<T>(a: set<T>, b: set<T>)
    requires a <= b
    ensures |a| <= |b|
  {
    assert b == a + (b - a);
    assert |b| == |a| + |b - a|;
  }

  lemma SizeOfTop(w: seq<Telemetry>, before: set<Telemetry>, pool: set<Telemetry>, all: set<Telemetry>, n: nat)
    requires IsTop(w, before) && n == |pool| && Elements(w) <= pool <= all && before <= all
    requires all == before + pool
    ensures (if n <= CAP then n else CAP) == (if |all| <= CAP then |all| else CAP)
  {
    DistinctCount(w);
    SmallerSet(pool, all);
    if |before| <= CAP {
      SameSize(Elements(w), before);
      assert all == pool;
    } else {
      SmallerSet(Elements(w), pool);
    }
  }

  lemma InPrefix(m: seq<Telemetry>, top: seq<Telemetry>, x: Telemetry, r: Telemetry)
    requires Falling(m) && top <= m && x in top && r in m && r !in top
    ensures x.receivedAt >= r.receivedAt
  {
    var i :| 0 <= i < |top| && top[i] == x;
    var j :| 0 <= j < |m| && m[j] == r;
    assert m[i] == x && j >= |top|;
  }

  /** If a set of the same size gained x, it lost some y. */
  lemma Displaced<T>(a: set<T>, b: set<T>, x: T) returns (y: T)
    requires |a| == |b| && x in b && x !in a
    ensures y in a && y !in b
  {
    if a <= b {
      SameSize(a, b);
      assert false;
    }
    y :| y in a && y !in b;
  }

  /** One merge turns a top of what was received into a top of what is received now. */
  lemma MergeKeepsTop(w: seq<Telemetry>, batch: seq<Telemetry>, before: set<Telemetry>, all: set<Telemetry>)
    requires Immutable(all) && all == before + Elements(batch) && IsTop(w, before)
    ensures IsTop(Merge(w, batch), all)
  {
    hide Sort, UpsertAll, Immutable;
    var nothing: seq<Telemetry> := [];
    var known := UpsertAll(nothing, w);
    assert Elements(nothing) == {};
    UpsertAllElements(nothing, w, all);
    UpsertAllElements(known, batch, all);
    var entries := UpsertAll(known, batch);
    SortedSet(entries);
    var m := Sort(entries, ByTime);
    assert Elements(m) == Elements(w) + Elements(batch);
    FirstOfPoolIsTop(w, before, m, Merge(w, batch), all);
  }

  // ---------------------------------------------------------------- streams of batches

  function Stream(batches: seq<seq<Telemetry>>): seq<Telemetry> {
    if batches == [] then [] else Merge(Stream(batches[..|batches| - 1]), batches[|batches| - 1])
  }

  ghost function Received(batches: seq<seq<Telemetry>>): set<Telemetry> {
    if batches == [] then {} else Received(batches[..|batches| - 1]) + Elements(batches[|batches| - 1])
  }

  lemma {:induction false} StreamIsTop(batches: seq<seq<Telemetry>>)
    requires Immutable(Received(batches))
    ensures IsTop(Stream(batches), Received(batches))
    decreases |batches|
  {
    if batches != [] {
      var front := batches[..|batches| - 1];
      StreamIsTop(front);
      MergeKeepsTop(Stream(front), batches[|batches| - 1], Received(front), Received(batches));
    } else {
      assert Elements(Stream(batches)) == {};
    }
  }

  // --------------------------------------------------------------------------- ties

  ghost function Newer(all: set<Telemetry>, r: Telemetry): set<Telemetry> {
    set x | x in all && x.receivedAt > r.receivedAt
  }

  /** Two records of the same instant have at least CAP newer ones before them. */
  ghost predicate TiesAreOld(all: set<Telemetry>) {
    forall a, b | a in all && b in all && a != b && a.receivedAt == b.receivedAt :: |Newer(all, a)| >= CAP
  }

  /** What is in a top has fewer than CAP newer records. */
  lemma InTopIsRecent(w: seq<Telemetry>, all: set<Telemetry>, x: Telemetry)
    requires IsTop(w, all) && x in w
    ensures |Newer(all, x)| < CAP
  {
    DistinctCount(w);
    var rest := Elements(w) - {x};
    forall y | y in Newer(all, x) ensures y in rest {
    }
    SmallerSet(Newer(all, x), rest);
    assert |rest| == |w| - 1;
  }

  lemma TopIsWindow(w: seq<Telemetry>, all: set<Telemetry>)
    requires IsTop(w, all) && TiesAreOld(all)
    ensures IsWindow(w, all)
  {
    forall x, r | x in w && r in all && x != r ensures x.receivedAt != r.receivedAt {
      assert x in Elements(w);
      InTopIsRecent(w, all, x);
    }
    forall i, j | 0 <= i < j < |w| ensures w[i].receivedAt > w[j].receivedAt {
      assert w[i] in w && w[j] in Elements(w);
    }
  }

  /** The window of a set is unique. */
  lemma WindowIsUnique(v: seq<Telemetry>, w: seq<Telemetry>, all: set<Telemetry>)
    requires IsWindow(v, all) && IsWindow(w, all)
    ensures v == w
  {
    DistinctCount(v);
    DistinctCount(w);
    if x :| x in v && x !in w {
      var y := Displaced(Elements(w), Elements(v), x);
      assert false;
    }
    if x :| x in w && x !in v {
      var y := Displaced(Elements(v), Elements(w), x);
      assert false;
    }
    SortedIsUnique(v, w);
  }

  lemma {:induction false} SortedIsUnique(v: seq<Telemetry>, w: seq<Telemetry>)
    requires NewestFirst(v) && NewestFirst(w) && |v| == |w| && forall r :: r in v <==> r in w
    ensures v == w
    decreases |v|
  {
    if v != [] {
      assert v[0] in w && w[0] in v;
      var i :| 0 <= i < |w| && w[i] == v[0];
      var j :| 0 <= j < |v| && v[j] == w[0];
      assert v[0] == w[0];
      var p, q := v[1..], w[1..];
      forall r ensures r in p <==> r in q {
        if r in p { assert r in v && r != v[0]; }
        if r in q { assert r in w && r != w[0]; }
        assert v == [v[0]] + p && w == [w[0]] + q;
      }
      SortedIsUnique(p, q);
    }
  }

  /** The displayed window is the newest 100 of everything ever received, unless
      two records of one instant compete for it. */
  lemma StreamIsWindow(batches: seq<seq<Telemetry>>)
    requires Immutable(Received(batches)) && TiesAreOld(Received(batches))
    ensures IsWindow(Stream(batches), Received(batches))
  {
    StreamIsTop(batches);
    TopIsWindow(Stream(batches), Received(batches));
  }

  // ------------------------------------------------------- when arrival order matters

  lemma {:induction false} EnumerationOf(all: set<Telemetry>) returns (w: seq<Telemetry>)
    ensures Elements(w) == all && Distinct(w)
    decreases |all|
  {
    if all == {} {
      w := [];
    } else {
      var x :| x in all;
      var rest := EnumerationOf(all - {x});
      w := [x] + rest;
      assert x !in Elements(rest);
      assert Elements(w) == {x} + Elements(rest);
    }
  }

  lemma {:induction false} UpsertIsAppend(entries: seq<Telemetry>, r: Telemetry)
    requires forall e | e in entries :: e.id != r.id
    ensures Upsert(entries, r) == entries + [r]
    decreases |entries|
  {
    if entries != [] {
      UpsertIsAppend(entries[1..], r);
      assert entries == [entries[0]] + entries[1..];
    }
  }

  lemma {:induction false} UpsertAllIsTheBatch(rs: seq<Telemetry>)
    requires Distinct(rs) && Immutable(Elements(rs))
    ensures UpsertAll([], rs) == rs
    decreases |rs|
  {
    if rs != [] {
      var front, last := rs[..|rs| - 1], rs[|rs| - 1];
      assert rs == front + [last];
      assert forall e | e in front :: e in Elements(rs);
      UpsertAllIsTheBatch(front);
      forall e | e in front ensures e.id != last.id {
        assert e in Elements(rs) && last in Elements(rs);
      }
      UpsertIsAppend(front, last);
    }
  }

  /** A batch of distinct records that comes first is simply sorted and cut. */
  lemma FirstBatch(rs: seq<Telemetry>)
    requires Distinct(rs) && Immutable(Elements(rs))
    ensures Stream([rs]) == Newest(rs) && Received([rs]) == Elements(rs)
  {
    UpsertAllIsTheBatch(rs);
    assert [rs][..0] == [];
    assert UpsertAll([], []) == [];
    assert Stream([]) == [] && Received([]) == {};
  }

  /** The first element with a key is the first of those with that key. */
  lemma {:induction false} FirstWithKey(m: seq<Telemetry>, i: nat)
    requires i < |m| && forall j | 0 <= j < i :: ByTime(m[j]) != ByTime(m[i])
    ensures var tied := WithKey(m, ByTime, ByTime(m[i]));
            tied != [] && tied[0] == m[i]
    decreases |m|
  {
    var front := m[..|m| - 1];
    if i < |front| {
      assert front[i] == m[i];
      FirstWithKey(front, i);
    } else {
      WithKeyFinds(front, ByTime, ByTime(m[i]));
    }
  }

  lemma FirstIndex(w: seq<Telemetry>, time: int) returns (i: nat)
    requires exists x :: x in w && x.receivedAt == time
    ensures i < |w| && w[i].receivedAt == time && forall j | 0 <= j < i :: w[j].receivedAt != time
  {
    i := 0;
    while w[i].receivedAt != time
      invariant i < |w| && forall j | 0 <= j < i :: w[j].receivedAt != time
      invariant exists k :: i <= k < |w| && w[k].receivedAt == time
      decreases |w| - i
    {
      i := i + 1;
    }
  }

  /** Of the records of an instant that a first batch leaves in the window, the one
      that came first is shown first. */
  lemma FirstComeFirstShown(rs: seq<Telemetry>, w: seq<Telemetry>, i: nat)
    requires rs != [] && w <= Sort(rs, ByTime) && i < |w| && w[i].receivedAt == rs[0].receivedAt
    requires forall j | 0 <= j < i :: w[j].receivedAt != rs[0].receivedAt
    ensures w[i] == rs[0]
  {
    hide Sort, WithKey;
    var m := Sort(rs, ByTime);
    SortMembers(rs, ByTime);
    assert m[i] == w[i];
    forall j | 0 <= j < i ensures ByTime(m[j]) != ByTime(m[i]) { assert m[j] == w[j]; }
    FirstWithKey(m, i);
    FirstWithKey(rs, 0);
    SortIsStable(rs, ByTime, ByTime(rs[0]));
  }

  /** A top shows some record of an instant that has fewer than CAP newer ones. */
  lemma RecentIsShown(w: seq<Telemetry>, all: set<Telemetry>, p: Telemetry)
    requires IsTop(w, all) && p in all && |Newer(all, p)| < CAP
    ensures exists x :: x in w && x.receivedAt == p.receivedAt
  {
    if p !in w {
      FullTop(w, all, p);
      DistinctCount(w);
      if Elements(w) <= Newer(all, p) {
        SmallerSet(Elements(w), Newer(all, p));
        assert false;
      }
      var x :| x in Elements(w) && x !in Newer(all, p);
    }
  }

  lemma TieFirst(all: set<Telemetry>, p: Telemetry, q: Telemetry, rest: seq<Telemetry>)
    requires p in all && q in all && p != q && Distinct(rest) && Elements(rest) == all - {p, q}
    ensures Elements([p, q] + rest) == all && Distinct([p, q] + rest)
  {
    assert p !in Elements(rest) && q !in Elements(rest);
    assert Elements([p, q] + rest) == {p, q} + Elements(rest);
  }

  /** Two records of one instant with fewer than CAP newer ones: two arrival orders
      that end in different windows. */
  lemma CompetingTie(all: set<Telemetry>, p: Telemetry, q: Telemetry)
    returns (a: seq<seq<Telemetry>>, b: seq<seq<Telemetry>>)
    requires Immutable(all) && p in all && q in all && p != q && p.receivedAt == q.receivedAt && |Newer(all, p)| < CAP
    ensures Received(a) == all == Received(b) && Stream(a) != Stream(b)
  {
    hide Sort, IsTop, Newer, Stream, Received, Distinct, Elements;
    var rest := EnumerationOf(all - {p, q});
    var x, y := [p, q] + rest, [q, p] + rest;
    TieFirst(all, p, q, rest);
    TieFirst(all, q, p, rest);
    FirstBatch(x);
    FirstBatch(y);
    a, b := [x], [y];
    StreamIsTop(a);
    var w := Stream(a);
    RecentIsShown(w, all, p);
    if w == Stream(b) {
      var i := FirstIndex(w, p.receivedAt);
      FirstComeFirstShown(x, w, i);
      FirstComeFirstShown(y, w, i);
    }
  }

  /** For any set of immutable records: the window does not depend on their arrival
      order, batching and repetition if and only if no two records of one instant
      are among the newest 100. */
  lemma ArrivalOrderIsIrrelevantIff(all: set<Telemetry>)
    requires Immutable(all)
    ensures TiesAreOld(all) <==> forall a, b :: Received(a) == all && Received(b) == all ==> Stream(a) == Stream(b)
  {
    hide Stream, Received, IsWindow, Newer;
    if TiesAreOld(all) {
      forall a, b | Received(a) == all && Received(b) == all ensures Stream(a) == Stream(b) {
        StreamIsWindow(a);
        StreamIsWindow(b);
        WindowIsUnique(Stream(a), Stream(b), all);
      }
    } else {
      var p, q :| p in all && q in all && p != q && p.receivedAt == q.receivedAt && |Newer(all, p)| < CAP;
      var a, b := CompetingTie(all, p, q);
    }
  }
}
