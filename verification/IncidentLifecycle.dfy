/** Incident status changes by PATCH and by work-order completion, interleaved at
    the granularity of the repository: the caller's read, then the read and the
    conditional write inside `put` (services/incident/app/main.py,
    services/work_order/app/main.py, shared/dynamodb.py). */
module IncidentLifecycle {
  import opened Repository

  datatype Status = Detected | Analyzing | ReviewRequired | Approved | InProgress | Resolved

  function Allowed(s: Status): set<Status> {
    match s
    case Detected => {Analyzing}
    case Analyzing => {ReviewRequired, Approved}
    case ReviewRequired => {Approved}
    case Approved => {InProgress}
    case InProgress => {Resolved}
    case Resolved => {}
  }

  function Rank(s: Status): nat {
    match s
    case Detected => 0
    case Analyzing => 1
    case ReviewRequired => 2
    case Approved => 3
    case InProgress => 4
    case Resolved => 5
  }

  /** A status PATCH checks the graph; completing a work order writes `resolved` directly. */
  datatype Kind = Patch(target: Status) | Completion

  /** `at` and `seen` are the version and status of the caller's own read. */
  datatype Request =
    | Waiting(kind: Kind)
    | Checked(kind: Kind, at: nat, seen: Status)
    | Ready(kind: Kind, at: nat, seen: Status, read: Option<Item<Status>>)
    | Closed(stored: bool)

  /** One incident, the requests on it, and every status it has been stored with. */
  datatype Desk = Desk(item: Item<Status>, requests: seq<Request>, history: seq<Status>)

  datatype Step = CallerRead(r: nat) | PutRead(r: nat) | PutWrite(r: nat)

  function Target(kind: Kind): Status {
    if kind.Patch? then kind.target else Resolved
  }

  predicate Enabled(s: Desk, step: Step) {
    && step.r < |s.requests|
    && match step
       case CallerRead(r) => s.requests[r].Waiting?
       case PutRead(r) => s.requests[r].Checked?
       case PutWrite(r) => s.requests[r].Ready?
  }

  function Apply(s: Desk, step: Step): Desk
    requires Enabled(s, step)
  {
    var q := s.requests[step.r];
    match step
    case CallerRead(r) =>
      var next := if q.kind.Patch? && q.kind.target !in Allowed(s.item.data) then Closed(false)
                  else Checked(q.kind, VersionRead(Some(s.item)), s.item.data);
      s.(requests := s.requests[r := next])
    case PutRead(r) =>
      s.(requests := s.requests[r := Ready(q.kind, q.at, q.seen, Some(s.item))])
    case PutWrite(r) =>
      if Condition(q.read, Some(s.item)) then
        Desk(Successor(q.read, Target(q.kind)), s.requests[r := Closed(true)], s.history + [Target(q.kind)])
      else s.(requests := s.requests[r := Closed(false)])
  }

  ghost predicate Run(s: Desk, steps: seq<Step>, t: Desk)
    decreases |steps|
  {
    if steps == [] then s == t else Enabled(s, steps[0]) && Run(Apply(s, steps[0]), steps[1..], t)
  }

  /** An incident just created, with requests that have not started. */
  ghost predicate Opening(s: Desk) {
    && s.item == Item(At(1), Detected) && s.history == [Detected]
    && forall r | 0 <= r < |s.requests| :: s.requests[r].Waiting?
  }

  /** Nothing was written between the caller's read and the read inside `put`. */
  predicate Undisturbed(q: Request) {
    q.Ready? && VersionRead(q.read) == q.at
  }

  /** A PATCH that is about to store. */
  ghost predicate AboutToPatch(s: Desk, r: nat) {
    r < |s.requests| && s.requests[r].Ready? && s.requests[r].kind.Patch? && Condition(s.requests[r].read, Some(s.item))
  }

  /** Every PATCH that is about to store found its own read undisturbed. */
  ghost predicate Protected(s: Desk, steps: seq<Step>)
    decreases |steps|
  {
    steps != [] ==>
      && Enabled(s, steps[0])
      && (steps[0].PutWrite? && AboutToPatch(s, steps[0].r) ==> Undisturbed(s.requests[steps[0].r]))
      && Protected(Apply(s, steps[0]), steps[1..])
  }

  ghost predicate OnlyPatches(s: Desk) {
    forall r | 0 <= r < |s.requests| && !s.requests[r].Closed? :: s.requests[r].kind.Patch?
  }

  /** Versions index the history; each caller's check was made against the status
      of the version it read. */
  ghost predicate Consistent(s: Desk) {
    && |s.history| >= 1 && s.item == Item(At(|s.history|), s.history[|s.history| - 1]) && s.history[0] == Detected
    && forall r | 0 <= r < |s.requests| && (s.requests[r].Checked? || s.requests[r].Ready?) ::
         var q := s.requests[r];
         && 1 <= q.at <= |s.history| && q.seen == s.history[q.at - 1]
         && (q.kind.Patch? ==> q.kind.target in Allowed(q.seen))
         && (q.Ready? ==> q.read.Some? && q.at <= VersionRead(q.read) <= |s.history|
                          && q.read == Some(Item(At(VersionRead(q.read)), s.history[VersionRead(q.read) - 1])))
  }

  lemma StepIsConsistent(s: Desk, step: Step)
    requires Consistent(s) && Enabled(s, step)
    ensures Consistent(Apply(s, step)) && (OnlyPatches(s) ==> OnlyPatches(Apply(s, step)))
  {
    hide Allowed, Rank;
    var t := Apply(s, step);
    assert forall k | 0 <= k < |s.history| :: t.history[k] == s.history[k];
  }

  /** How many requests were answered with success. */
  ghost function Successes(requests: seq<Request>): nat {
    if requests == [] then 0
    else Successes(requests[..|requests| - 1]) + if requests[|requests| - 1] == Closed(true) then 1 else 0
  }

  lemma {:induction false} SuccessesUpdate(requests: seq<Request>, r: nat, q: Request)
    requires r < |requests| && requests[r] != Closed(true)
    ensures Successes(requests[r := q]) == Successes(requests) + if q == Closed(true) then 1 else 0
    decreases |requests|
  {
    var n := |requests| - 1;
    if r < n {
      assert requests[r := q][..n] == requests[..n][r := q];
      SuccessesUpdate(requests[..n], r, q);
    } else {
      assert requests[r := q][..n] == requests[..n];
    }
  }

  lemma {:induction false} NobodySucceededYet(requests: seq<Request>)
    requires forall r | 0 <= r < |requests| :: requests[r].Waiting?
    ensures Successes(requests) == 0
    decreases |requests|
  {
    if requests != [] { NobodySucceededYet(requests[..|requests| - 1]); }
  }

  lemma {:induction false} SuccessesAreChangesFrom(s: Desk, steps: seq<Step>, t: Desk)
    requires Run(s, steps, t) && |s.history| == 1 + Successes(s.requests)
    ensures |t.history| == 1 + Successes(t.requests)
    decreases |steps|
  {
    hide Successes, Allowed;
    if steps != [] {
      var u, r := Apply(s, steps[0]), steps[0].r;
      SuccessesUpdate(s.requests, r, u.requests[r]);
      assert u.requests == s.requests[r := u.requests[r]];
      SuccessesAreChangesFrom(u, steps[1..], t);
    }
  }

  /** On every interleaving, a request is answered with success exactly when it has
      stored a status: no change without an answer, no answer without a change. */
  lemma SuccessesAreChanges(s: Desk, steps: seq<Step>, t: Desk)
    requires Opening(s) && Run(s, steps, t)
    ensures |t.history| == 1 + Successes(t.requests)
  {
    NobodySucceededYet(s.requests);
    SuccessesAreChangesFrom(s, steps, t);
  }

  // --------------------------------------------------------------- paths in the graph

  ghost predicate Path(h: seq<Status>) {
    forall k | 0 <= k < |h| - 1 :: h[k + 1] in Allowed(h[k])
  }

  ghost predicate Climbs(h: seq<Status>) {
    forall k | 0 <= k < |h| - 1 :: Rank(h[k]) <= Rank(h[k + 1])
  }

  lemma {:induction false} PathClimbs(h: seq<Status>, i: nat, j: nat)
    requires Path(h) && i <= j < |h|
    ensures Rank(h[j]) >= Rank(h[i]) + (j - i)
    decreases j
  {
    if i < j {
      PathClimbs(h, i, j - 1);
      assert h[j - 1 + 1] in Allowed(h[j - 1]);
    }
  }

  lemma {:induction false} ReachesBack(h: seq<Status>, j: nat)
    requires Path(h) && |h| >= 1 && h[0] == Detected && j < |h|
    ensures Rank(h[j]) >= 1 ==> Analyzing in h[..j + 1]
    ensures Rank(h[j]) >= 3 ==> Approved in h[..j + 1]
    ensures Rank(h[j]) >= 4 ==> InProgress in h[..j + 1]
    decreases j
  {
    assert h[j] in h[..j + 1];
    if j > 0 {
      ReachesBack(h, j - 1);
      assert h[j - 1 + 1] in Allowed(h[j - 1]);
      assert forall x :: x in h[..j] ==> x in h[..j + 1];
    }
  }

  lemma {:induction false} PatchesFollowTheGraph(s: Desk, steps: seq<Step>, t: Desk)
    requires Consistent(s) && Path(s.history) && OnlyPatches(s) && Run(s, steps, t) && Protected(s, steps)
    ensures Consistent(t) && Path(t.history)
    decreases |steps|
  {
    if steps != [] {
      StepIsConsistent(s, steps[0]);
      PatchesFollowTheGraph(Apply(s, steps[0]), steps[1..], t);
    }
  }

  /** Undisturbed PATCH requests only: the stored statuses form a path of at most
      five changes, and an incident cannot be resolved without having been
      analysed, approved and in progress. */
  lemma ResolvedPassedEveryGate(s: Desk, steps: seq<Step>, t: Desk)
    requires Opening(s) && OnlyPatches(s) && Run(s, steps, t) && Protected(s, steps)
    ensures Path(t.history) && |t.history| <= 6
    ensures t.item.data.Resolved? ==> Analyzing in t.history && Approved in t.history && InProgress in t.history
  {
    PatchesFollowTheGraph(s, steps, t);
    var n := |t.history|;
    PathClimbs(t.history, 0, n - 1);
    ReachesBack(t.history, n - 1);
    assert t.history[..n] == t.history;
  }

  lemma StepClimbs(s: Desk, step: Step)
    requires Consistent(s) && Climbs(s.history) && Enabled(s, step)
    requires step.PutWrite? && AboutToPatch(s, step.r) ==> Undisturbed(s.requests[step.r])
    ensures Climbs(Apply(s, step).history) && s.history <= Apply(s, step).history
  {
    hide Allowed;
    if step.PutWrite? && s.requests[step.r].kind.Patch? {
      AllowedClimbs(s.requests[step.r].seen, s.requests[step.r].kind.target);
    }
  }

  lemma AllowedClimbs(a: Status, b: Status)
    ensures b in Allowed(a) ==> Rank(a) < Rank(b)
  {
  }

  /** With work-order completions in between, disturbed or not, the status still
      never moves back. */
  lemma {:induction false} StatusNeverMovesBack(s: Desk, steps: seq<Step>, t: Desk)
    requires Consistent(s) && Climbs(s.history) && Run(s, steps, t) && Protected(s, steps)
    ensures Consistent(t) && Climbs(t.history) && s.history <= t.history
    decreases |steps|
  {
    hide Climbs, Consistent;
    if steps != [] {
      StepIsConsistent(s, steps[0]);
      StepClimbs(s, steps[0]);
      StatusNeverMovesBack(Apply(s, steps[0]), steps[1..], t);
    }
  }

  // --------------------------------------------------------- without the protection

  /** The one harmless disturbance: approving after somebody else asked for review. */
  predicate ReviewedMeanwhile(q: Request, now: Status) {
    q.Ready? && q.kind == Patch(Approved) && q.seen == Analyzing && now == ReviewRequired
  }

  lemma {:induction false} ClimbsFar(h: seq<Status>, i: nat, j: nat)
    requires Climbs(h) && i <= j < |h|
    ensures Rank(h[i]) <= Rank(h[j])
    decreases j
  {
    if i < j { ClimbsFar(h, i, j - 1); }
  }

  lemma ClimbsSnoc(h: seq<Status>, x: Status)
    requires h != []
    ensures Climbs(h + [x]) <==> Climbs(h) && Rank(h[|h| - 1]) <= Rank(x)
  {
    hide Rank;
    var t, n := h + [x], |h|;
    assert forall k | 0 <= k < n :: t[k] == h[k];
    if Climbs(t) {
      assert Rank(t[n - 1]) <= Rank(t[n - 1 + 1]);
      forall k | 0 <= k < n - 1 ensures Rank(h[k]) <= Rank(h[k + 1]) { assert Rank(t[k]) <= Rank(t[k + 1]); }
    }
  }

  lemma PathSnoc(h: seq<Status>, x: Status)
    requires h != []
    ensures Path(h + [x]) <==> Path(h) && x in Allowed(h[|h| - 1])
  {
    hide Allowed;
    var t, n := h + [x], |h|;
    assert forall k | 0 <= k < n :: t[k] == h[k];
    if Path(t) {
      assert t[n - 1 + 1] in Allowed(t[n - 1]);
      forall k | 0 <= k < n - 1 ensures h[k + 1] in Allowed(h[k]) { assert t[k + 1] in Allowed(t[k]); }
    }
  }

  /** A PATCH that is about to store makes an allowed move if and only if the
      status is the one it checked, or it approves and only a review request came
      in between. Nothing is assumed about how the incident got there. */
  lemma PatchIsLegalIff(s: Desk, r: nat)
    requires Consistent(s) && AboutToPatch(s, r)
    ensures var q, now := s.requests[r], s.item.data;
            var legal := now == q.seen || (q.kind.target == Approved && now in {Analyzing, ReviewRequired});
            && (q.kind.target in Allowed(now) <==> legal)
            && (Path(Apply(s, PutWrite(r)).history) <==> Path(s.history) && legal)
  {
    hide Path;
    PathSnoc(s.history, s.requests[r].kind.target);
  }

  /** It moves the status back if and only if somebody moved on from what it checked,
      and neither to its own target nor to a review before its approval. */
  lemma PatchClimbsIff(s: Desk, r: nat)
    requires Consistent(s) && AboutToPatch(s, r) && Climbs(s.history)
    ensures var q, now := s.requests[r], s.item.data;
            Climbs(Apply(s, PutWrite(r)).history) <==>
              now == q.seen || now == q.kind.target || ReviewedMeanwhile(q, now)
  {
    hide Climbs;
    var q := s.requests[r];
    ClimbsFar(s.history, q.at - 1, |s.history| - 1);
    ClimbsSnoc(s.history, q.kind.target);
  }

  /** On this run every PATCH that stores finds the status it checked, its own
      target, or a review before its approval. */
  ghost predicate Harmless(s: Desk, steps: seq<Step>)
    decreases |steps|
  {
    steps != [] ==>
      && Enabled(s, steps[0])
      && (steps[0].PutWrite? && AboutToPatch(s, steps[0].r) ==>
            var q, now := s.requests[steps[0].r], s.item.data;
            now == q.seen || now == q.kind.target || ReviewedMeanwhile(q, now))
      && Harmless(Apply(s, steps[0]), steps[1..])
  }

  lemma StepClimbsIff(s: Desk, step: Step)
    requires Consistent(s) && Climbs(s.history) && Enabled(s, step)
    ensures var patches := step.PutWrite? && AboutToPatch(s, step.r);
            Climbs(Apply(s, step).history) <==>
              patches ==>
                var q, now := s.requests[step.r], s.item.data;
                now == q.seen || now == q.kind.target || ReviewedMeanwhile(q, now)
  {
    hide Climbs, Allowed;
    if step.PutWrite? {
      if AboutToPatch(s, step.r) {
        PatchClimbsIff(s, step.r);
      } else {
        ClimbsSnoc(s.history, Resolved);
      }
    }
  }

  lemma {:induction false} FallenStaysFallen(s: Desk, steps: seq<Step>, t: Desk)
    requires Run(s, steps, t) && !Climbs(s.history)
    ensures !Climbs(t.history)
    decreases |steps|
  {
    hide Rank, Allowed;
    if steps != [] {
      var u := Apply(s, steps[0]);
      var k :| 0 <= k < |s.history| - 1 && Rank(s.history[k]) > Rank(s.history[k + 1]);
      assert u.history[k] == s.history[k] && u.history[k + 1] == s.history[k + 1];
      FallenStaysFallen(u, steps[1..], t);
    }
  }

  /** For every interleaving of PATCHes and completions: the status never moves back
      if and only if every PATCH that stores is harmless when it does. */
  lemma {:induction false} StatusClimbsIffHarmless(s: Desk, steps: seq<Step>, t: Desk)
    requires Consistent(s) && Climbs(s.history) && Run(s, steps, t)
    ensures Climbs(t.history) <==> Harmless(s, steps)
    decreases |steps|
  {
    hide Climbs, Consistent, Apply;
    if steps != [] {
      var u := Apply(s, steps[0]);
      StepIsConsistent(s, steps[0]);
      StepClimbsIff(s, steps[0]);
      if Climbs(u.history) {
        StatusClimbsIffHarmless(u, steps[1..], t);
      } else {
        FallenStaysFallen(u, steps[1..], t);
      }
    }
  }

  /** A new incident, and three requests on it. */
  function ThreeRequests(): Desk {
    Desk(Item(At(1), Detected),
         [Waiting(Patch(Analyzing)), Waiting(Patch(ReviewRequired)), Waiting(Patch(Approved))],
         [Detected])
  }

  /** ... after the first of them. */
  function UnderAnalysis(): Desk {
    Desk(Item(At(2), Analyzing), ThreeRequests().requests[0 := Closed(true)], [Detected, Analyzing])
  }

  lemma ReviewersCollide() returns (steps: seq<Step>, t: Desk)
    ensures Run(UnderAnalysis(), steps, t) && t.history == [Detected, Analyzing, Approved, ReviewRequired]
  {
    var s := UnderAnalysis();
    var s1 := Apply(s, CallerRead(1));
    var s2 := Apply(s1, CallerRead(2));
    var s3 := Apply(s2, PutRead(2));
    var s4 := Apply(s3, PutWrite(2));
    var s5 := Apply(s4, PutRead(1));
    t := Apply(s5, PutWrite(1));
    assert Run(t, [], t);
    steps := Cons(s5, PutWrite(1), [], t);
    steps := Cons(s4, PutRead(1), steps, t);
    steps := Cons(s3, PutWrite(2), steps, t);
    steps := Cons(s2, PutRead(2), steps, t);
    steps := Cons(s1, CallerRead(2), steps, t);
    steps := Cons(s, CallerRead(1), steps, t);
  }

  /** A concrete run from a new incident: two reviewers check it under analysis,
      both checks pass, both puts succeed, and the approved incident falls back to
      review. */
  lemma InterleavedPatchesMoveBack() returns (steps: seq<Step>, t: Desk)
    ensures Opening(ThreeRequests()) && OnlyPatches(ThreeRequests()) && Run(ThreeRequests(), steps, t)
    ensures t.history == [Detected, Analyzing, Approved, ReviewRequired] && !Climbs(t.history) && !Path(t.history)
  {
    var s := ThreeRequests();
    var s1 := Apply(s, CallerRead(0));
    var s2 := Apply(s1, PutRead(0));
    assert Apply(s2, PutWrite(0)) == UnderAnalysis();
    steps, t := ReviewersCollide();
    steps := Cons(s2, PutWrite(0), steps, t);
    steps := Cons(s1, PutRead(0), steps, t);
    steps := Cons(s, CallerRead(0), steps, t);
    assert Rank(t.history[2]) > Rank(t.history[2 + 1]) && t.history[2 + 1] !in Allowed(t.history[2]);
  }

  lemma Cons(s: Desk, step: Step, rest: seq<Step>, t: Desk) returns (steps: seq<Step>)
    requires Enabled(s, step) && Run(Apply(s, step), rest, t)
    ensures steps == [step] + rest && Run(s, steps, t)
  {
    steps := [step] + rest;
    assert steps[1..] == rest;
  }
}
