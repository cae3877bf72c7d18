/** Deduplication of recommended actions (services/ai_analysis/app/engine.py):
    keep the first action for each normalised, non-blank instruction and renumber. */
module ActionPlan {

  datatype Action = Action(instruction: string, sequence: nat, hazardous: bool, requiresShutdown: bool)
  datatype Plan = Plan(actions: seq<Action>) | Unusable

  /** Norms of a list, in order. */
  function Seen(actions: seq<Action>, norm: string -> string): set<string> {
    set a | a in actions :: norm(a.instruction)
  }

  function Dedup(actions: seq<Action>, norm: string -> string): (kept: seq<Action>)
    ensures |kept| <= |actions|
  {
    if actions == [] then []
    else
      var kept := Dedup(actions[..|actions| - 1], norm);
      var a := actions[|actions| - 1];
      var n := norm(a.instruction);
      if n == "" || n in Seen(kept, norm) then kept else kept + [a.(sequence := |kept| + 1)]
  }

  method Deduplicate(actions: seq<Action>, norm: string -> string) returns (plan: Plan)
    ensures plan == if Dedup(actions, norm) == [] then Unusable else Plan(Dedup(actions, norm))
  {
    var unique: seq<Action> := [];
    var seen: set<string> := {};
    for i := 0 to |actions|
      invariant unique == Dedup(actions[..i], norm) && seen == Seen(unique, norm)
    {
      assert actions[..i + 1][..i] == actions[..i];
      var normalized := norm(actions[i].instruction);
      if normalized != "" && normalized !in seen {
        var added := actions[i].(sequence := |unique| + 1);
        SeenSnoc(unique, added, norm);
        seen := seen + {normalized};
        unique := unique + [added];
      }
    }
    assert actions[..|actions|] == actions;
    plan := if unique == [] then Unusable else Plan(unique);
  }

  lemma SeenSnoc(s: seq<Action>, a: Action, norm: string -> string)
    ensures Seen(s + [a], norm) == Seen(s, norm) + {norm(a.instruction)}
  {
    var u := s + [a];
    forall n | n in Seen(s, norm) ensures n in Seen(u, norm) {
      var x :| x in s && norm(x.instruction) == n;
      assert x in u;
    }
    assert a in u;
  }

  // ------------------------------------------------------------------ independently

  /** Position i holds the first action with its non-blank norm. */
  ghost predicate First(actions: seq<Action>, norm: string -> string, i: nat) {
    && i < |actions| && norm(actions[i].instruction) != ""
    && forall j | 0 <= j < i :: norm(actions[j].instruction) != norm(actions[i].instruction)
  }

  /** `at` lists, in order, the positions the plan was taken from. */
  ghost predicate Selected(actions: seq<Action>, norm: string -> string, kept: seq<Action>, at: seq<nat>) {
    && |at| == |kept|
    && (forall k | 0 <= k < |at| :: First(actions, norm, at[k]) && kept[k] == actions[at[k]].(sequence := k + 1))
    && (forall j, k | 0 <= j < k < |at| :: at[j] < at[k])
    && (forall i: nat | First(actions, norm, i) :: i in at)
  }

  ghost predicate Met(actions: seq<Action>, norm: string -> string, n: string) {
    exists i :: 0 <= i < |actions| && norm(actions[i].instruction) == n
  }

  lemma DedupUnfolds(actions: seq<Action>, norm: string -> string)
    requires actions != []
    ensures var n := |actions| - 1;
            var kept, x := Dedup(actions[..n], norm), norm(actions[n].instruction);
            Dedup(actions, norm) ==
              if x == "" || x in Seen(kept, norm) then kept else kept + [actions[n].(sequence := |kept| + 1)]
  {
    hide Seen;
  }

  lemma MetSnoc(actions: seq<Action>, norm: string -> string, n: string)
    requires actions != []
    ensures Met(actions, norm, n) <==>
            Met(actions[..|actions| - 1], norm, n) || norm(actions[|actions| - 1].instruction) == n
  {
    var front := actions[..|actions| - 1];
    if i :| 0 <= i < |front| && norm(front[i].instruction) == n {
      assert norm(actions[i].instruction) == n;
    }
    if i :| 0 <= i < |actions| && norm(actions[i].instruction) == n {
      if i < |front| { assert norm(front[i].instruction) == n; }
    }
  }

  /** The norms remembered are the non-blank ones met so far. */
  lemma {:induction false} SeenIsMet(actions: seq<Action>, norm: string -> string, n: string)
    ensures n in Seen(Dedup(actions, norm), norm) <==> n != "" && Met(actions, norm, n)
    decreases |actions|
  {
    hide Dedup, Seen, Met;
    if actions == [] {
      NothingSeen(actions, norm, n);
    } else {
      var front, a := actions[..|actions| - 1], actions[|actions| - 1];
      var kept := Dedup(front, norm);
      SeenIsMet(front, norm, n);
      SeenIsMet(front, norm, norm(a.instruction));
      MetSnoc(actions, norm, n);
      DedupUnfolds(actions, norm);
      SeenSnoc(kept, a.(sequence := |kept| + 1), norm);
    }
  }

  lemma NothingSeen(actions: seq<Action>, norm: string -> string, n: string)
    requires actions == []
    ensures n !in Seen(Dedup(actions, norm), norm) && !Met(actions, norm, n)
  {
  }

  lemma FirstInFront(actions: seq<Action>, norm: string -> string)
    requires actions != []
    ensures forall i: nat | i < |actions| - 1 :: First(actions, norm, i) <==> First(actions[..|actions| - 1], norm, i)
  {
    var front := actions[..|actions| - 1];
    forall i: nat | i < |front| ensures First(actions, norm, i) <==> First(front, norm, i) {
      assert forall j | 0 <= j <= i :: actions[j] == front[j];
    }
  }

  lemma {:induction false} FirstOfItsNorm(actions: seq<Action>, norm: string -> string, i: nat) returns (j: nat)
    requires i < |actions| && norm(actions[i].instruction) != ""
    ensures j <= i && First(actions, norm, j) && norm(actions[j].instruction) == norm(actions[i].instruction)
    decreases i
  {
    if First(actions, norm, i) {
      j := i;
    } else {
      var k :| 0 <= k < i && norm(actions[k].instruction) == norm(actions[i].instruction);
      j := FirstOfItsNorm(actions, norm, k);
    }
  }

  /** The last action is kept exactly when it is a first occurrence. */
  lemma LastIsKeptIffFirst(actions: seq<Action>, norm: string -> string)
    requires actions != []
    ensures var n := |actions| - 1;
            var kept := Dedup(actions[..n], norm);
            Dedup(actions, norm) ==
              if First(actions, norm, n) then kept + [actions[n].(sequence := |kept| + 1)] else kept
  {
    hide Dedup, Seen, Met, First;
    var n := |actions| - 1;
    DedupUnfolds(actions, norm);
    SeenIsMet(actions[..n], norm, norm(actions[n].instruction));
    FirstIffNotMet(actions, norm);
  }

  lemma FirstIffNotMet(actions: seq<Action>, norm: string -> string)
    requires actions != []
    ensures var n := |actions| - 1;
            var x := norm(actions[n].instruction);
            First(actions, norm, n) <==> x != "" && !Met(actions[..n], norm, x)
  {
    var n := |actions| - 1;
    var front, x := actions[..n], norm(actions[n].instruction);
    assert forall j | 0 <= j < n :: front[j] == actions[j];
    if Met(front, norm, x) {
      var i :| 0 <= i < |front| && norm(front[i].instruction) == x;
      assert norm(actions[i].instruction) == x;
    } else {
      forall j | 0 <= j < n ensures norm(actions[j].instruction) != x {
        assert norm(front[j].instruction) != x;
      }
    }
  }

  lemma SelectedExtends(actions: seq<Action>, norm: string -> string, kept: seq<Action>, at: seq<nat>)
    requires actions != [] && Selected(actions[..|actions| - 1], norm, kept, at) && First(actions, norm, |actions| - 1)
    ensures Selected(actions, norm, kept + [actions[|actions| - 1].(sequence := |kept| + 1)], at + [|actions| - 1])
  {
    hide First;
    var n := |actions| - 1;
    FirstInFront(actions, norm);
    FirstIsInside(actions[..n], norm);
    FirstIsInside(actions, norm);
    forall i: nat | First(actions, norm, i) ensures i in at + [n] {
      if i < n { assert First(actions[..n], norm, i); }
    }
  }

  lemma SelectedStays(actions: seq<Action>, norm: string -> string, kept: seq<Action>, at: seq<nat>)
    requires actions != [] && Selected(actions[..|actions| - 1], norm, kept, at) && !First(actions, norm, |actions| - 1)
    ensures Selected(actions, norm, kept, at)
  {
    hide First;
    var n := |actions| - 1;
    FirstInFront(actions, norm);
    FirstIsInside(actions[..n], norm);
    FirstIsInside(actions, norm);
    forall i: nat | First(actions, norm, i) ensures i in at {
      assert i < n && First(actions[..n], norm, i);
    }
  }

  lemma FirstIsInside(actions: seq<Action>, norm: string -> string)
    ensures forall i: nat | First(actions, norm, i) :: i < |actions|
  {
  }

  /** The plan is the order-preserving filter of first occurrences, numbered 1..n. */
  lemma {:induction false} DedupSelects(actions: seq<Action>, norm: string -> string) returns (at: seq<nat>)
    ensures Selected(actions, norm, Dedup(actions, norm), at)
    decreases |actions|
  {
    hide Dedup, First, Selected;
    at := [];
    if actions == [] {
      NothingSelected(actions, norm);
    } else {
      var n := |actions| - 1;
      at := DedupSelects(actions[..n], norm);
      LastIsKeptIffFirst(actions, norm);
      if First(actions, norm, n) {
        SelectedExtends(actions, norm, Dedup(actions[..n], norm), at);
        at := at + [n];
      } else {
        SelectedStays(actions, norm, Dedup(actions[..n], norm), at);
      }
    }
  }

  lemma NothingSelected(actions: seq<Action>, norm: string -> string)
    requires actions == []
    ensures Selected(actions, norm, Dedup(actions, norm), [])
  {
  }

  /** Every dropped non-blank action repeats an earlier one that was kept. */
  lemma DroppedRepeatsKept(actions: seq<Action>, norm: string -> string, i: nat) returns (j: nat, k: nat)
    requires i < |actions| && norm(actions[i].instruction) != "" && !First(actions, norm, i)
    ensures j < i && norm(actions[j].instruction) == norm(actions[i].instruction)
    ensures k < |Dedup(actions, norm)| && Dedup(actions, norm)[k] == actions[j].(sequence := k + 1)
  {
    hide Dedup;
    j := FirstOfItsNorm(actions, norm, i);
    var at := DedupSelects(actions, norm);
    assert j in at;
    k :| 0 <= k < |at| && at[k] == j;
  }

  /** The request fails if and only if every instruction is blank. */
  lemma UnusableIffAllBlank(actions: seq<Action>, norm: string -> string)
    ensures Dedup(actions, norm) == [] <==> forall i | 0 <= i < |actions| :: norm(actions[i].instruction) == ""
  {
    hide Dedup;
    forall i | 0 <= i < |actions|
      ensures Dedup(actions, norm) == [] ==> norm(actions[i].instruction) == ""
    {
      SeenIsMet(actions, norm, norm(actions[i].instruction));
    }
    if Dedup(actions, norm) != [] {
      var a := Dedup(actions, norm)[0];
      assert norm(a.instruction) in Seen(Dedup(actions, norm), norm);
      SeenIsMet(actions, norm, norm(a.instruction));
    }
  }

  /** Deduplicating a plan again changes nothing. */
  lemma {:induction false} DedupIsIdempotent(actions: seq<Action>, norm: string -> string)
    ensures Dedup(Dedup(actions, norm), norm) == Dedup(actions, norm)
    decreases |actions|
  {
    hide Dedup, Seen;
    if actions == [] {
      assert Dedup(actions, norm) == actions by { NothingKept(actions, norm); }
    } else {
      var front, a := actions[..|actions| - 1], actions[|actions| - 1];
      var kept := Dedup(front, norm);
      DedupIsIdempotent(front, norm);
      DedupUnfolds(actions, norm);
      if Dedup(actions, norm) != kept {
        var more := kept + [a.(sequence := |kept| + 1)];
        assert more[..|kept|] == kept;
        DedupUnfolds(more, norm);
      }
    }
  }

  lemma NothingKept(actions: seq<Action>, norm: string -> string)
    requires actions == []
    ensures Dedup(actions, norm) == actions
  {
  }
}
