/** The streak detector (services/incident/app/detection.py) against a
    specification over the whole sample history. */
module Detection {

  datatype Level = Critical | Warning | Normal
  datatype SensorKey = SensorKey(equipment: string, sensor: string)
  datatype Signal = Signal(key: SensorKey, level: Level)
  datatype Trigger = NoTrigger | AutoCritical | AutoWarningStreak

  type Streaks = map<SensorKey, nat>

  function StreakOf(streaks: Streaks, key: SensorKey): nat {
    if key in streaks then streaks[key] else 0
  }

  datatype Verdict = Verdict(streaks: Streaks, trigger: Trigger)

  /** One sample: the counter is reset by a trigger and by anything but a warning. */
  function Judge(streaks: Streaks, threshold: int, signal: Signal): Verdict {
    if signal.level.Critical? then Verdict(streaks[signal.key := 0], AutoCritical)
    else if !signal.level.Warning? then Verdict(streaks[signal.key := 0], NoTrigger)
    else
      var n := StreakOf(streaks, signal.key) + 1;
      if n < threshold then Verdict(streaks[signal.key := n], NoTrigger)
      else Verdict(streaks[signal.key := 0], AutoWarningStreak)
  }

  class AnomalyDetector {
    const threshold: int
    var streaks: Streaks

    constructor (threshold: int := 3)
      ensures this.threshold == threshold && streaks == map[]
    {
      this.threshold := threshold;
      this.streaks := map[];
    }

    method Evaluate(signal: Signal) returns (trigger: Trigger)
      modifies this
      ensures Verdict(streaks, trigger) == Judge(old(streaks), threshold, signal)
    {
      if signal.level.Critical? {
        streaks := streaks[signal.key := 0];
        return AutoCritical;
      }
      if !signal.level.Warning? {
        streaks := streaks[signal.key := 0];
        return NoTrigger;
      }
      var n := (if signal.key in streaks then streaks[signal.key] else 0) + 1;
      streaks := streaks[signal.key := n];
      if n < threshold {
        return NoTrigger;
      }
      streaks := streaks[signal.key := 0];
      return AutoWarningStreak;
    }
  }

  // ------------------------------------------------------------------- histories

  /** The detector after a whole history, starting empty. */
  function After(history: seq<Signal>, threshold: int): Streaks {
    if history == [] then map[]
    else Judge(After(history[..|history| - 1], threshold), threshold, history[|history| - 1]).streaks
  }

  /** What the last sample of a history triggered. */
  function Fired(history: seq<Signal>, threshold: int): Trigger
    requires history != []
  {
    Judge(After(history[..|history| - 1], threshold), threshold, history[|history| - 1]).trigger
  }

  /** A key's own samples, in order. */
  function Own(history: seq<Signal>, key: SensorKey): seq<Level> {
    if history == [] then []
    else
      var last := history[|history| - 1];
      Own(history[..|history| - 1], key) + if last.key == key then [last.level] else []
  }

  /** The length of the run of warnings a sample sequence ends with. */
  function TrailingWarnings(levels: seq<Level>): nat {
    if levels == [] || !levels[|levels| - 1].Warning? then 0
    else 1 + TrailingWarnings(levels[..|levels| - 1])
  }

  function Warnings(levels: seq<Level>): nat {
    if levels == [] then 0
    else Warnings(levels[..|levels| - 1]) + if levels[|levels| - 1].Warning? then 1 else 0
  }

  /** How many samples of a key raised AUTO-WARNING-STREAK. */
  function StreakTriggers(history: seq<Signal>, threshold: int, key: SensorKey): nat {
    if history == [] then 0
    else StreakTriggers(history[..|history| - 1], threshold, key)
         + if history[|history| - 1].key == key && Fired(history, threshold).AutoWarningStreak? then 1 else 0
  }

  /** A threshold below one behaves like one. */
  function Effective(threshold: int): (t: int)
    ensures t >= 1
  {
    if threshold < 1 then 1 else threshold
  }

  function Modulo(n: nat, t: int): nat
    requires t >= 1
  {
    n % t
  }

  /** What the sample that ends a key's own history must trigger. */
  function Expected(own: seq<Level>, threshold: int): Trigger
    requires own != []
  {
    match own[|own| - 1]
    case Critical => AutoCritical
    case Normal => NoTrigger
    case Warning => if Modulo(TrailingWarnings(own), Effective(threshold)) == 0 then AutoWarningStreak else NoTrigger
  }

  lemma NextModulo(n: nat, t: int)
    requires t >= 1
    ensures Modulo(n, t) < t && Modulo(n + 1, t) == if Modulo(n, t) + 1 < t then Modulo(n, t) + 1 else 0
  {
    var q, r := n / t, n % t;
    assert n == q * t + r;
    if r + 1 < t {
      assert n + 1 == q * t + (r + 1);
      ModuloUnique(n + 1, t, q, r + 1);
    } else {
      assert n + 1 == (q + 1) * t + 0;
      ModuloUnique(n + 1, t, q + 1, 0);
    }
  }

  lemma ModuloUnique(n: int, t: int, q: int, r: int)
    requires t >= 1 && 0 <= r < t && n == q * t + r
    ensures n % t == r
  {
    var d := q - n / t;
    assert d * t == q * t - (n / t) * t;
    assert d * t == n % t - r;
    MultipleIsLarge(d, t);
    MultipleIsLarge(-d, t);
    assert -d * t == -(d * t);
  }

  lemma MultipleIsLarge(d: int, t: int)
    requires t >= 1
    ensures d >= 1 ==> d * t >= t
  {
    if d >= 1 {
      assert d * t == (d - 1) * t + t;
      assert (d - 1) * t >= 0;
    }
  }

  lemma TrailingSnoc(own: seq<Level>, level: Level)
    ensures TrailingWarnings(own + [level]) == if level.Warning? then TrailingWarnings(own) + 1 else 0
    ensures Warnings(own + [level]) == Warnings(own) + if level.Warning? then 1 else 0
  {
    assert (own + [level])[..|own|] == own;
  }

  /** The constant-space counter is the trailing warning run modulo the threshold. */
  lemma {:induction false} CounterIsTrailingRun(history: seq<Signal>, threshold: int, key: SensorKey)
    ensures StreakOf(After(history, threshold), key) ==
        Modulo(TrailingWarnings(Own(history, key)), Effective(threshold))
    decreases |history|
  {
    hide Modulo, TrailingWarnings;
    if history == [] {
      NothingTrails(Effective(threshold));
    } else {
      var before, last := history[..|history| - 1], history[|history| - 1];
      CounterIsTrailingRun(before, threshold, key);
      if last.key == key {
        TrailingSnoc(Own(before, key), last.level);
        NothingTrails(Effective(threshold));
        NextModulo(TrailingWarnings(Own(before, key)), Effective(threshold));
      } else {
        assert Own(history, key) == Own(before, key);
      }
    }
  }

  lemma NothingTrails(t: int)
    requires t >= 1
    ensures TrailingWarnings([]) == 0 && Modulo(0, t) == 0
  {
  }

  /** A sample triggers exactly when it is critical or completes a multiple of the
      threshold among its own key's samples; other keys never matter. */
  lemma TriggersAsExpected(history: seq<Signal>, threshold: int)
    requires history != []
    ensures var own := Own(history, history[|history| - 1].key);
            own != [] && Fired(history, threshold) == Expected(own, threshold)
  {
    hide After, Judge, Expected;
    var before, last := history[..|history| - 1], history[|history| - 1];
    CounterIsTrailingRun(before, threshold, last.key);
    assert Own(history, last.key) == Own(before, last.key) + [last.level];
    JudgedAsExpected(After(before, threshold), threshold, last, Own(before, last.key));
  }

  lemma JudgedAsExpected(streaks: Streaks, threshold: int, signal: Signal, own: seq<Level>)
    requires StreakOf(streaks, signal.key) == Modulo(TrailingWarnings(own), Effective(threshold))
    ensures Judge(streaks, threshold, signal).trigger == Expected(own + [signal.level], threshold)
  {
    hide Modulo, TrailingWarnings;
    TrailingSnoc(own, signal.level);
    NextModulo(TrailingWarnings(own), Effective(threshold));
    assert (own + [signal.level])[|own|] == signal.level;
  }

  /** Each streak trigger used up a threshold's worth of warnings of its own. */
  lemma {:induction false} TriggersAreEarned(history: seq<Signal>, threshold: int, key: SensorKey)
    ensures StreakTriggers(history, threshold, key) * Effective(threshold) + StreakOf(After(history, threshold), key)
         <= Warnings(Own(history, key))
    decreases |history|
  {
    hide Warnings;
    if history == [] {
      assert Warnings([]) == 0 by { NoWarnings(); }
    } else {
      var before, last := history[..|history| - 1], history[|history| - 1];
      TriggersAreEarned(before, threshold, key);
      var n, k := StreakTriggers(before, threshold, key), StreakTriggers(history, threshold, key);
      OneMoreTimes(n, Effective(threshold));
      if last.key == key {
        TrailingSnoc(Own(before, key), last.level);
        if Fired(history, threshold).AutoWarningStreak? {
          assert k == n + 1;
          CounterIsTrailingRun(before, threshold, key);
          NextModulo(TrailingWarnings(Own(before, key)), Effective(threshold));
        } else {
          assert k == n;
        }
      } else {
        assert k == n && Own(history, key) == Own(before, key);
      }
    }
  }

  lemma NoWarnings()
    ensures Warnings([]) == 0
  {
  }

  lemma OneMoreTimes(n: nat, t: int)
    ensures (n + 1) * t == n * t + t
  {
  }
}
