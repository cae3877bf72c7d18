/** The versioned table behind every service (shared/dynamodb.py): `put` reads the
    current item and then writes conditionally on what it read, as two separate
    steps between which any other writer may act. */
module Repository {

  datatype Option<+T> = None | Some(value: T)

  /** Items written by `put` carry a version; older ones may lack the attribute. */
  datatype Version = Unversioned | At(n: nat)
  datatype Item<+D> = Item(version: Version, data: D)

  function Lookup<D>(table: map<string, Item<D>>, key: string): Option<Item<D>> {
    if key in table then Some(table[key]) else None
  }

  /** The version `put` takes from its own read: 0 without an item or an attribute. */
  function VersionRead<D>(read: Option<Item<D>>): nat {
    match read
    case None => 0
    case Some(item) => if item.version.At? then item.version.n else 0
  }

  /** The condition expression of the write, against the item stored by then. */
  predicate Condition<D>(read: Option<Item<D>>, current: Option<Item<D>>) {
    match read
    case None => current.None?
    case Some(_) => current.Some? && current.value.version == At(VersionRead(read))
  }

  function Successor<D>(read: Option<Item<D>>, data: D): Item<D> {
    Item(At(VersionRead(read) + 1), data)
  }

  /** One repository object. `meanwhile` is what other writers store between the
      read and the write of this call. */
  class DynamoRepository<D> {
    var table: map<string, Item<D>>

    constructor (table: map<string, Item<D>>)
      ensures this.table == table
    {
      this.table := table;
    }

    /** True on success, false for ConcurrentUpdateError. Without interference
        the call succeeds if and only if the item is absent or versioned: an item
        that lacks the version attribute can never be updated. */
    method Put(key: string, data: D, meanwhile: map<string, Item<D>>) returns (ok: bool)
      modifies this
      ensures var at := Lookup(old(table) + meanwhile, key);
              ok == Condition(Lookup(old(table), key), at)
      ensures table ==
              if ok then (old(table) + meanwhile)[key := Successor(Lookup(old(table), key), data)]
              else old(table) + meanwhile
      ensures key !in meanwhile ==> (ok <==> key !in old(table) || old(table)[key].version.At?)
    {
      var current := if key in table then Some(table[key]) else None;
      var version := if current.Some? && current.value.version.At? then current.value.version.n else 0;
      table := table + meanwhile;
      if current.None? {
        ok := key !in table;
      } else {
        ok := key in table && table[key].version == At(version);
      }
      if ok {
        table := table[key := Item(At(version + 1), data)];
      }
    }

    method Get(key: string) returns (data: Option<D>)
      ensures data.Some? <==> key in table
      ensures data.Some? ==> data.value == table[key].data
    {
      data := if key in table then Some(table[key].data) else None;
    }
  }

  // ----------------------------------------------------------- interleaved writers

  /** A writer between its read and its write. `seen` is history: how many puts on
      the key had succeeded when it read. */
  datatype Holding<+D> = Idle | Holding(key: string, read: Option<Item<D>>, data: D, seen: nat)
  datatype Success<+D> = Success(writer: nat, key: string, read: Option<Item<D>>, seen: nat, data: D)
  datatype Machine<+D> = Machine(table: map<string, Item<D>>, writers: seq<Holding<D>>, successes: seq<Success<D>>)

  datatype Step<+D> = Read(writer: nat, key: string, data: D) | Write(writer: nat) | Drop(writer: nat)

  function CountOn<D>(log: seq<Success<D>>, key: string): (n: nat)
    ensures n <= |log|
  {
    if log == [] then 0
    else CountOn(log[..|log| - 1], key) + if log[|log| - 1].key == key then 1 else 0
  }

  /** The data of the last successful put on a key. */
  function LatestOn<D>(log: seq<Success<D>>, key: string): Option<D> {
    if log == [] then None
    else if log[|log| - 1].key == key then Some(log[|log| - 1].data)
    else LatestOn(log[..|log| - 1], key)
  }

  predicate Enabled<D>(m: Machine<D>, step: Step<D>) {
    step.writer < |m.writers| && (step.Write? ==> m.writers[step.writer].Holding?)
  }

  /** Any writer may read a key, finish with its conditional write, or vanish. */
  function Apply<D>(m: Machine<D>, step: Step<D>): Machine<D>
    requires Enabled(m, step)
  {
    match step
    case Read(w, key, data) =>
      m.(writers := m.writers[w := Holding(key, Lookup(m.table, key), data, CountOn(m.successes, key))])
    case Write(w) =>
      var h := m.writers[w];
      if Condition(h.read, Lookup(m.table, h.key)) then
        Machine(m.table[h.key := Successor(h.read, h.data)], m.writers[w := Idle],
                m.successes + [Success(w, h.key, h.read, h.seen, h.data)])
      else m.(writers := m.writers[w := Idle])
    case Drop(w) => m.(writers := m.writers[w := Idle])
  }

  ghost predicate Run<D>(m: Machine<D>, steps: seq<Step<D>>, t: Machine<D>)
    decreases |steps|
  {
    if steps == [] then m == t else Enabled(m, steps[0]) && Run(Apply(m, steps[0]), steps[1..], t)
  }

  /** Nobody has read anything and nothing was written yet. */
  ghost predicate Start<D>(m: Machine<D>) {
    m.successes == [] && forall w | 0 <= w < |m.writers| :: m.writers[w].Idle?
  }

  ghost predicate Frozen<D>(base: map<string, Item<D>>, key: string) {
    key in base && base[key].version.Unversioned?
  }

  ghost function BaseVersion<D>(base: map<string, Item<D>>, key: string): nat {
    VersionRead(Lookup(base, key))
  }

  /** What a key holds after n successful puts on it. */
  ghost predicate Current<D>(base: map<string, Item<D>>, m: Machine<D>, key: string) {
    var n := CountOn(m.successes, key);
    if n == 0 then Lookup(m.table, key) == Lookup(base, key)
    else !Frozen(base, key) && key in m.table && m.table[key].version == At(BaseVersion(base, key) + n)
         && LatestOn(m.successes, key) == Some(m.table[key].data)
  }

  /** A read that saw exactly the first `seen` puts. */
  ghost predicate Sighting<D>(base: map<string, Item<D>>, key: string, read: Option<Item<D>>, seen: nat) {
    && VersionRead(read) == BaseVersion(base, key) + seen
    && (read.None? <==> key !in base && seen == 0)
    && (seen == 0 ==> read == Lookup(base, key))
    && (seen > 0 ==> !Frozen(base, key) && read.Some? && read.value.version.At?)
  }

  ghost predicate Chained<D>(base: map<string, Item<D>>, m: Machine<D>, i: nat)
    requires i < |m.successes|
  {
    var e := m.successes[i];
    e.seen == CountOn(m.successes[..i], e.key) && Sighting(base, e.key, e.read, e.seen) && !Frozen(base, e.key)
  }

  ghost predicate Chain<D>(base: map<string, Item<D>>, m: Machine<D>) {
    && (forall key: string :: Current(base, m, key))
    && (forall i | 0 <= i < |m.successes| :: Chained(base, m, i))
    && (forall w | 0 <= w < |m.writers| && m.writers[w].Holding? ::
          var h := m.writers[w];
          h.seen <= CountOn(m.successes, h.key) && Sighting(base, h.key, h.read, h.seen))
  }

  lemma CountSnoc<D>(log: seq<Success<D>>, e: Success<D>, key: string)
    ensures CountOn(log + [e], key) == CountOn(log, key) + if e.key == key then 1 else 0
  {
    assert (log + [e])[..|log|] == log;
  }

  lemma {:induction false} CountMonotone<D>(log: seq<Success<D>>, i: nat, j: nat, key: string)
    requires i <= j <= |log|
    ensures CountOn(log[..i], key) <= CountOn(log[..j], key)
    decreases j
  {
    if i < j {
      assert log[..j][..j - 1] == log[..j - 1];
      CountMonotone(log, i, j - 1, key);
    }
  }

  lemma WriteExtendsChain<D>(base: map<string, Item<D>>, m: Machine<D>, w: nat)
    requires Chain(base, m) && Enabled(m, Step<D>.Write(w))
    requires Condition(m.writers[w].read, Lookup(m.table, m.writers[w].key))
    ensures m.writers[w].seen == CountOn(m.successes, m.writers[w].key)
    ensures Chain(base, Apply(m, Step<D>.Write(w)))
  {
    var h, t := m.writers[w], Apply(m, Step<D>.Write(w));
    var e := Success(w, h.key, h.read, h.seen, h.data);
    assert Current(base, m, h.key);
    forall key: string ensures Current(base, t, key) {
      assert Current(base, m, key);
      CountSnoc(m.successes, e, key);
      assert (m.successes + [e])[..|m.successes|] == m.successes;
    }
    forall i | 0 <= i < |t.successes| ensures Chained(base, t, i) {
      assert t.successes[..i] == m.successes[..i];
      if i < |m.successes| {
        assert Chained(base, m, i);
      } else {
        assert m.successes[..i] == m.successes;
      }
    }
    forall v | 0 <= v < |t.writers| && t.writers[v].Holding?
      ensures t.writers[v].seen <= CountOn(t.successes, t.writers[v].key)
    {
      CountSnoc(m.successes, e, t.writers[v].key);
    }
  }

  lemma StepExtendsChain<D>(base: map<string, Item<D>>, m: Machine<D>, step: Step<D>)
    requires Chain(base, m) && Enabled(m, step)
    ensures Chain(base, Apply(m, step))
  {
    var t := Apply(m, step);
    if step.Write? && Condition(m.writers[step.writer].read, Lookup(m.table, m.writers[step.writer].key)) {
      WriteExtendsChain(base, m, step.writer);
    } else {
      forall key: string ensures Current(base, t, key) { assert Current(base, m, key); }
      forall i | 0 <= i < |t.successes| ensures Chained(base, t, i) { assert Chained(base, m, i); }
      if step.Read? { assert Current(base, m, step.key); }
    }
  }

  /** For every interleaving of reads, conditional writes and vanishing writers. */
  lemma {:induction false} ChainOnEveryRun<D>(
    base: map<string, Item<D>>, m: Machine<D>, steps: seq<Step<D>>, t: Machine<D>)
    requires Chain(base, m) && Run(m, steps, t)
    ensures Chain(base, t)
    decreases |steps|
  {
    if steps != [] {
      StepExtendsChain(base, m, steps[0]);
      ChainOnEveryRun(base, Apply(m, steps[0]), steps[1..], t);
    }
  }

  lemma StartIsChained<D>(m: Machine<D>)
    requires Start(m)
    ensures Chain(m.table, m)
  {
  }

  /** An item's version is its starting version plus the number of successful
      puts and its data that of the last one; an item without a version attribute is never changed by anyone. */
  lemma VersionCountsSuccesses<D>(m: Machine<D>, steps: seq<Step<D>>, t: Machine<D>, key: string)
    requires Start(m) && Run(m, steps, t)
    ensures CountOn(t.successes, key) > 0 ==>
              && key in t.table && t.table[key].version == At(BaseVersion(m.table, key) + CountOn(t.successes, key))
              && LatestOn(t.successes, key) == Some(t.table[key].data)
    ensures CountOn(t.successes, key) == 0 ==> Lookup(t.table, key) == Lookup(m.table, key)
    ensures Frozen(m.table, key) ==> Lookup(t.table, key) == Lookup(m.table, key)
  {
    StartIsChained(m);
    ChainOnEveryRun(m.table, m, steps, t);
    assert Current(m.table, t, key);
  }

  /** No lost update and no ABA: the i-th success on a key read the version its
      predecessor wrote, with no other success in between; so of the writers that
      read one version at most one succeeds. */
  lemma SuccessesFormAChain<D>(m: Machine<D>, steps: seq<Step<D>>, t: Machine<D>, i: nat, j: nat)
    requires Start(m) && Run(m, steps, t) && i < j < |t.successes| && t.successes[i].key == t.successes[j].key
    ensures t.successes[i].seen == CountOn(t.successes[..i], t.successes[i].key)
    ensures VersionRead(t.successes[i].read) ==
        BaseVersion(m.table, t.successes[i].key) + CountOn(t.successes[..i], t.successes[i].key)
    ensures VersionRead(t.successes[i].read) < VersionRead(t.successes[j].read)
  {
    StartIsChained(m);
    ChainOnEveryRun(m.table, m, steps, t);
    assert Chained(m.table, t, i) && Chained(m.table, t, j);
    var log, key := t.successes, t.successes[i].key;
    assert log[..i + 1] == log[..i] + [log[i]];
    CountSnoc(log[..i], log[i], key);
    CountMonotone(log, i + 1, j, key);
  }
}
