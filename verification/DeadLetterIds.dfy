/** Record coordinates and the storage keys derived from them
    (services/event_worker/app/main.py, `_dead_letter`). */
module DeadLetterIds {

  /** Topic, partition and offset: the key of the worker's retry counters. */
  datatype RecordKey = RecordKey(topic: string, partition: nat, offset: nat)

  const DIGITS := "0123456789"

  /** Decimal rendering of a natural number, as an f-string prints it. */
  function Decimal(n: nat): (s: string)
    ensures |s| > 0 && '-' !in s
  {
    if n < 10 then [DIGITS[n]] else Decimal(n / 10) + [DIGITS[n % 10]]
  }

  function DeadLetterId(r: RecordKey): string {
    "dlq-" + r.topic + "-" + Decimal(r.partition) + "-" + Decimal(r.offset)
  }

  /** A storage key that some record's dead letter would be filed under. */
  ghost predicate IsDeadLetterId(id: string) {
    exists r: RecordKey :: id == DeadLetterId(r)
  }

  lemma {:induction false} DecimalIsInjective(m: nat, n: nat)
    requires Decimal(m) == Decimal(n)
    ensures m == n
  {
    var s, t := Decimal(m), Decimal(n);
    if m >= 10 && n >= 10 {
      assert s[..|s| - 1] == Decimal(m / 10) && t[..|t| - 1] == Decimal(n / 10);
      DecimalIsInjective(m / 10, n / 10);
      assert s[|s| - 1] == DIGITS[m % 10] && t[|t| - 1] == DIGITS[n % 10];
    } else if m < 10 && n < 10 {
      assert s[0] == DIGITS[m] && t[0] == DIGITS[n];
    }
  }

  /** The last dash of a string splits it uniquely, whatever dashes come before. */
  lemma SplitAtLastDash(a: string, b: string, x: string, y: string)
    requires '-' !in x && '-' !in y
    requires a + "-" + x == b + "-" + y
    ensures a == b && x == y
  {
    var s := a + "-" + x;
    assert s[|a|] == '-' && s[|b|] == '-';
    assert |a| == |b|;
    assert s[..|a|] == a && s[..|b|] == b;
    assert s[|a| + 1..] == x && s[|b| + 1..] == y;
  }

  /** Distinct records never share a dead-letter entry, even when a topic name
      itself contains dashes and digits. */
  lemma DeadLetterIdIsInjective(p: RecordKey, q: RecordKey)
    requires DeadLetterId(p) == DeadLetterId(q)
    ensures p == q
  {
    var hp, hq := "dlq-" + p.topic, "dlq-" + q.topic;
    var mp, mq := hp + "-" + Decimal(p.partition), hq + "-" + Decimal(q.partition);
    SplitAtLastDash(mp, mq, Decimal(p.offset), Decimal(q.offset));
    SplitAtLastDash(hp, hq, Decimal(p.partition), Decimal(q.partition));
    assert hp[4..] == p.topic && hq[4..] == q.topic;
    DecimalIsInjective(p.partition, q.partition);
    DecimalIsInjective(p.offset, q.offset);
  }
}
