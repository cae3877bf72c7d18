/** Local document retrieval (shared/rag.py, the local branch of `retrieve`):
    count matching terms, rank with a stable sort, cut, score. */
module Retrieval {
  import opened StableSort

  datatype Document = Document(id: string, filename: string, searchText: string)

  /** `at` is the document's place in the repository's listing. */
  datatype Ranked = Ranked(matches: nat, at: nat, document: Document)
  datatype Chunk = Chunk(document: Document, score: real)

  predicate OccursAt(text: string, term: string, i: nat) {
    i + |term| <= |text| && text[i..i + |term|] == term
  }

  predicate Contains(text: string, term: string) {
    exists i: nat | i <= |text| :: OccursAt(text, term, i)
  }

  /** The query's words of two characters or more, case-folded. */
  function Terms(words: seq<string>, fold: string -> string): set<string> {
    set w | w in words && |w| >= 2 :: fold(w)
  }

  function Haystack(d: Document, fold: string -> string): string {
    fold(d.filename + " " + d.searchText)
  }

  function Matching(terms: set<string>, haystack: string): set<string> {
    set t | t in terms && Contains(haystack, t)
  }

  function Matches(terms: set<string>, d: Document, fold: string -> string): nat {
    |Matching(terms, Haystack(d, fold))|
  }

  function ByMatches(r: Ranked): int {
    r.matches
  }

  /** The documents with at least one match, in listing order. */
  function Candidates(docs: seq<Document>, terms: set<string>, fold: string -> string): seq<Ranked> {
    if docs == [] then []
    else
      var n := |docs| - 1;
      var m := Matches(terms, docs[n], fold);
      Candidates(docs[..n], terms, fold) + if m > 0 then [Ranked(m, n, docs[n])] else []
  }

  /** A Python slice `s[:limit]`, negative limits included. */
  function Cut<T>(s: seq<T>, limit: int): seq<T> {
    if limit >= |s| then s
    else if limit >= 0 then s[..limit]
    else if |s| + limit > 0 then s[..|s| + limit]
    else []
  }

  function Score(matches: nat, terms: nat): real {
    var ratio := matches as real / (if terms > 1 then terms else 1) as real;
    if ratio < 1.0 then ratio else 1.0
  }

  function Retrieve(docs: seq<Document>, terms: set<string>, fold: string -> string, limit: int): seq<Ranked> {
    Cut(Sort(Candidates(docs, terms, fold), ByMatches), limit)
  }

  method CountMatches(terms: set<string>, haystack: string) returns (n: nat)
    ensures n == |Matching(terms, haystack)|
  {
    n := 0;
    var left := terms;
    ghost var found: set<string> := {};
    while left != {}
      invariant left <= terms && n == |found| && found == Matching(terms - left, haystack)
      decreases left
    {
      var t :| t in left;
      if Contains(haystack, t) {
        n := n + 1;
        found := found + {t};
      }
      left := left - {t};
    }
    assert terms - left == terms;
  }

  method RetrieveChunks(docs: seq<Document>, words: seq<string>, fold: string -> string, limit: int)
    returns (chunks: seq<Chunk>)
    ensures var terms := Terms(words, fold);
            var r := Retrieve(docs, terms, fold, limit);
            && |chunks| == |r|
            && forall k | 0 <= k < |r| :: chunks[k] == Chunk(r[k].document, Score(r[k].matches, |terms|))
    ensures forall k | 0 <= k < |chunks| :: 0.0 < chunks[k].score <= 1.0
    ensures forall j, k | 0 <= j < k < |chunks| :: chunks[j].score >= chunks[k].score
    ensures forall k | 0 <= k < |chunks| ::
              && chunks[k].document in docs
              && exists w :: w in words && |w| >= 2
                             && Within(fold(chunks[k].document.filename + " " + chunks[k].document.searchText), fold(w))
  {
    hide Sort, Candidates, Matching, Score, Haystack;
    var terms := Terms(words, fold);
    var ranked: seq<Ranked> := [];
    NoCandidates(docs[..0], terms, fold);
    for i := 0 to |docs|
      invariant ranked == Candidates(docs[..i], terms, fold)
    {
      CandidatesUpTo(docs, i, terms, fold);
      var matches := CountMatches(terms, Haystack(docs[i], fold));
      if matches > 0 {
        ranked := ranked + [Ranked(matches, i, docs[i])];
      }
    }
    assert docs[..|docs|] == docs;
    ranked := Sort(ranked, ByMatches);
    var top := Cut(ranked, limit);
    chunks := seq(|top|, k requires 0 <= k < |top| => Chunk(top[k].document, Score(top[k].matches, |terms|)));
    ScoresFall(docs, terms, fold, limit);
    ChunksAreHits(docs, words, fold, limit);
  }

  lemma ChunksAreHits(docs: seq<Document>, words: seq<string>, fold: string -> string, limit: int)
    ensures var r := Retrieve(docs, Terms(words, fold), fold, limit);
            forall k | 0 <= k < |r| ::
              && r[k].document in docs
              && exists w :: w in words && |w| >= 2
                             && Within(fold(r[k].document.filename + " " + r[k].document.searchText), fold(w))
  {
    hide Sort, Candidates, Matches, Within, Terms;
    var terms := Terms(words, fold);
    var c := Candidates(docs, terms, fold);
    var m, r := Sort(c, ByMatches), Retrieve(docs, terms, fold, limit);
    CandidatesAreTheHits(docs, terms, fold);
    SortMembers(c, ByMatches);
    assert r <= m;
    forall k | 0 <= k < |r|
      ensures r[k].document in docs
      ensures exists w :: w in words && |w| >= 2
                          && Within(fold(r[k].document.filename + " " + r[k].document.searchText), fold(w))
    {
      assert r[k] == m[k] && m[k] in multiset(m) && m[k] in multiset(c);
      assert Faithful(docs, terms, fold, r[k]);
      HitIff(docs, words, fold, r[k].at);
    }
  }

  lemma NoCandidates(docs: seq<Document>, terms: set<string>, fold: string -> string)
    requires docs == []
    ensures Candidates(docs, terms, fold) == []
  {
  }

  lemma CandidatesUpTo(docs: seq<Document>, i: nat, terms: set<string>, fold: string -> string)
    requires i < |docs|
    ensures var m := |Matching(terms, Haystack(docs[i], fold))|;
            Candidates(docs[..i + 1], terms, fold) ==
              Candidates(docs[..i], terms, fold) + if m > 0 then [Ranked(m, i, docs[i])] else []
  {
    assert docs[..i + 1][..i] == docs[..i];
  }

  // ------------------------------------------------------------------ what it promises

  /** Documents that match some term. */
  ghost predicate Hit(docs: seq<Document>, terms: set<string>, fold: string -> string, i: nat) {
    i < |docs| && Matches(terms, docs[i], fold) > 0
  }

  function Hits(docs: seq<Document>, terms: set<string>, fold: string -> string): nat {
    if docs == [] then 0
    else Hits(docs[..|docs| - 1], terms, fold) + if Matches(terms, docs[|docs| - 1], fold) > 0 then 1 else 0
  }

  ghost predicate Faithful(docs: seq<Document>, terms: set<string>, fold: string -> string, r: Ranked) {
    Hit(docs, terms, fold, r.at) && r == Ranked(Matches(terms, docs[r.at], fold), r.at, docs[r.at])
  }

  /** More matches first; equal matches in listing order. */
  ghost predicate Before(a: Ranked, b: Ranked) {
    a.matches > b.matches || (a.matches == b.matches && a.at < b.at)
  }

  ghost predicate InOrder(s: seq<Ranked>) {
    forall i, j | 0 <= i < j < |s| :: Before(s[i], s[j])
  }

  /** Substring, said with the parts around it. */
  ghost predicate Within(text: string, term: string) {
    exists a, b :: text == a + term + b
  }

  lemma ContainsIsWithin(text: string, term: string)
    ensures Contains(text, term) <==> Within(text, term)
  {
    if Contains(text, term) {
      var i :| 0 <= i <= |text| && OccursAt(text, term, i);
      assert text == text[..i] + term + text[i + |term|..];
    }
    if a, b :| text == a + term + b {
      assert text[|a|..|a| + |term|] == term;
      assert OccursAt(text, term, |a|);
    }
  }

  /** A document is a hit if and only if a word of the query, of two characters or
      more, occurs in its file name and text, both folded. */
  lemma HitIff(docs: seq<Document>, words: seq<string>, fold: string -> string, i: nat)
    ensures Hit(docs, Terms(words, fold), fold, i) <==>
            && i < |docs|
            && exists w :: w in words && |w| >= 2 && Within(fold(docs[i].filename + " " + docs[i].searchText), fold(w))
  {
    hide Contains, Within;
    if i < |docs| {
      var d := docs[i];
      var text, terms := fold(d.filename + " " + d.searchText), Terms(words, fold);
      var found := Matching(terms, Haystack(d, fold));
      if found != {} {
        var t :| t in found;
        ContainsIsWithin(text, t);
        var w :| w in words && |w| >= 2 && fold(w) == t;
      }
      if w :| w in words && |w| >= 2 && Within(text, fold(w)) {
        ContainsIsWithin(text, fold(w));
        assert fold(w) in terms && fold(w) in found;
      }
    }
  }

  ghost predicate Homomorphic(fold: string -> string) {
    forall a, b :: fold(a + b) == fold(a) + fold(b)
  }

  /** Folding character by character, a word found in the file name alone, or in the
      text alone, makes a hit. */
  lemma NameAndTextAreSearched(docs: seq<Document>, words: seq<string>, fold: string -> string, i: nat, w: string)
    requires i < |docs| && w in words && |w| >= 2 && Homomorphic(fold)
    requires Within(fold(docs[i].filename), fold(w)) || Within(fold(docs[i].searchText), fold(w))
    ensures Hit(docs, Terms(words, fold), fold, i)
  {
    hide Homomorphic, Within, Terms, Hit;
    var d, t := docs[i], fold(w);
    FoldSplits(fold, d.filename, " ", d.searchText);
    if Within(fold(d.filename), t) {
      WithinWhole("", fold(d.filename), fold(" ") + fold(d.searchText), t);
    } else {
      WithinWhole(fold(d.filename) + fold(" "), fold(d.searchText), "", t);
    }
    HitIff(docs, words, fold, i);
  }

  lemma FoldSplits(fold: string -> string, a: string, b: string, c: string)
    requires Homomorphic(fold)
    ensures fold(a + b + c) == "" + fold(a) + (fold(b) + fold(c)) == fold(a) + fold(b) + fold(c) + ""
  {
    assert fold(a + b + c) == fold(a + b) + fold(c);
  }

  lemma WithinWhole(a: string, x: string, b: string, t: string)
    requires Within(x, t)
    ensures Within(a + x + b, t)
  {
    var l, r :| x == l + t + r;
    assert a + x + b == (a + l) + t + (r + b);
  }

  lemma {:induction false} CandidatesAreTheHits(docs: seq<Document>, terms: set<string>, fold: string -> string)
    ensures |Candidates(docs, terms, fold)| == Hits(docs, terms, fold)
    ensures forall r :: r in Candidates(docs, terms, fold) <==> Faithful(docs, terms, fold, r)
    ensures forall i, j | 0 <= i < j < |Candidates(docs, terms, fold)| ::
              Candidates(docs, terms, fold)[i].at < Candidates(docs, terms, fold)[j].at
    decreases |docs|
  {
    hide Matches;
    if docs != [] {
      var n := |docs| - 1;
      var front := docs[..n];
      CandidatesAreTheHits(front, terms, fold);
      var c, cf := Candidates(docs, terms, fold), Candidates(front, terms, fold);
      forall r ensures r in c <==> Faithful(docs, terms, fold, r) {
        assert r in cf <==> Faithful(front, terms, fold, r);
        if r.at < n { assert front[r.at] == docs[r.at]; }
      }
      forall i, j | 0 <= i < j < |c| ensures c[i].at < c[j].at {
        assert c[i] == cf[i] && cf[i] in cf;
        assert Faithful(front, terms, fold, cf[i]);
        if j < |cf| { assert c[j] == cf[j]; }
      }
    }
  }

  lemma {:induction false} InsertInOrder(s: seq<Ranked>, x: Ranked)
    requires InOrder(s) && forall i | 0 <= i < |s| :: s[i].at < x.at
    ensures InOrder(Insert(s, x, ByMatches))
    decreases |s|
  {
    if s != [] && ByMatches(s[|s| - 1]) < ByMatches(x) {
      var front, last := s[..|s| - 1], s[|s| - 1];
      InsertInOrder(front, x);
      var r := Insert(front, x, ByMatches);
      InsertMembers(front, x, ByMatches);
      forall i | 0 <= i < |r| ensures Before(r[i], last) {
        assert r[i] in multiset(r);
        if r[i] != x {
          assert r[i] in multiset(front);
          var j :| 0 <= j < |front| && front[j] == r[i];
          assert Before(s[j], s[|s| - 1]);
        }
      }
    }
  }

  lemma {:induction false} SortInOrder(s: seq<Ranked>)
    requires forall i, j | 0 <= i < j < |s| :: s[i].at < s[j].at
    ensures InOrder(Sort(s, ByMatches))
    decreases |s|
  {
    if s != [] {
      var front := s[..|s| - 1];
      SortInOrder(front);
      var r := Sort(front, ByMatches);
      SortMembers(front, ByMatches);
      forall i | 0 <= i < |r| ensures r[i].at < s[|s| - 1].at {
        assert r[i] in multiset(r) && r[i] in multiset(front);
        var j :| 0 <= j < |front| && front[j] == r[i];
        assert s[j].at < s[|s| - 1].at;
      }
      InsertInOrder(r, s[|s| - 1]);
    }
  }

  /** For every listing, query and limit: the result holds min(limit, hits) hits, or
      for a negative limit all hits but that many of the last; each with its true
      count, by falling match count with ties in listing order, and every hit left out
      comes after every hit returned. */
  lemma TopHits(docs: seq<Document>, terms: set<string>, fold: string -> string, limit: int)
    ensures var r, hits := Retrieve(docs, terms, fold, limit), Hits(docs, terms, fold);
            && (limit >= 0 ==> |r| == (if limit < hits then limit else hits))
            && (limit < 0 ==> |r| == (if hits + limit > 0 then hits + limit else 0))
            && InOrder(r)
            && (forall k | 0 <= k < |r| :: Faithful(docs, terms, fold, r[k]))
            && (forall x, k | Faithful(docs, terms, fold, x) && x !in r && 0 <= k < |r| :: Before(r[k], x))
  {
    hide Faithful, Sort, Candidates;
    var c := Candidates(docs, terms, fold);
    var m, r := Sort(c, ByMatches), Retrieve(docs, terms, fold, limit);
    CandidatesAreTheHits(docs, terms, fold);
    SortInOrder(c);
    SortMembers(c, ByMatches);
    forall x ensures x in m <==> Faithful(docs, terms, fold, x) {
      assert x in multiset(m) <==> x in multiset(c);
    }
    assert r <= m;
    forall k | 0 <= k < |r| ensures Faithful(docs, terms, fold, r[k]) { assert r[k] == m[k] && m[k] in m; }
    forall x, k | Faithful(docs, terms, fold, x) && x !in r && 0 <= k < |r| ensures Before(r[k], x) {
      var j :| 0 <= j < |m| && m[j] == x;
      assert j >= |r| && m[k] == r[k];
    }
  }

  lemma MatchesAreTerms(terms: set<string>, haystack: string)
    ensures |Matching(terms, haystack)| <= |terms|
  {
    var found := Matching(terms, haystack);
    assert terms == found + (terms - found);
    assert |terms| == |found| + |terms - found|;
  }

  /** Every score is in (0, 1] and is the plain ratio: the clamp never takes effect. */
  lemma ScoresAreRatios(docs: seq<Document>, terms: set<string>, fold: string -> string, r: Ranked)
    requires Faithful(docs, terms, fold, r)
    ensures |terms| >= 1 && 0.0 < Score(r.matches, |terms|) <= 1.0
    ensures Score(r.matches, |terms|) * |terms| as real == r.matches as real
  {
    MatchesAreTerms(terms, Haystack(r.document, fold));
    var n, m := |terms| as real, r.matches as real;
    RatioBound(m, n);
  }

  /** For any limit, negative ones included: scores are in (0, 1] and never rise
      along the result. */
  lemma ScoresFall(docs: seq<Document>, terms: set<string>, fold: string -> string, limit: int)
    ensures var r := Retrieve(docs, terms, fold, limit);
            && (forall k | 0 <= k < |r| :: 0.0 < Score(r[k].matches, |terms|) <= 1.0)
            && (forall j, k | 0 <= j < k < |r| :: Score(r[j].matches, |terms|) >= Score(r[k].matches, |terms|))
  {
    hide Sort, Candidates, Faithful, Score;
    var c := Candidates(docs, terms, fold);
    var m, r := Sort(c, ByMatches), Retrieve(docs, terms, fold, limit);
    CandidatesAreTheHits(docs, terms, fold);
    SortMembers(c, ByMatches);
    SortDescends(c, ByMatches);
    assert r <= m;
    forall k | 0 <= k < |r| ensures 0.0 < Score(r[k].matches, |terms|) <= 1.0 {
      assert r[k] == m[k] && m[k] in multiset(m) && m[k] in multiset(c);
      ScoresAreRatios(docs, terms, fold, r[k]);
    }
    forall j, k | 0 <= j < k < |r| ensures Score(r[j].matches, |terms|) >= Score(r[k].matches, |terms|) {
      assert r[j] == m[j] && r[k] == m[k] && ByMatches(m[j]) >= ByMatches(m[k]);
      ScoreIsMonotone(r[k].matches, r[j].matches, |terms|);
    }
  }

  lemma ScoreIsMonotone(a: nat, b: nat, terms: nat)
    requires a <= b
    ensures Score(a, terms) <= Score(b, terms)
  {
    var n := (if terms > 1 then terms else 1) as real;
    QuotientIsMonotone(a as real, b as real, n);
  }

  lemma QuotientIsMonotone(x: real, y: real, n: real)
    requires x <= y && n > 0.0
    ensures x / n <= y / n
  {
    assert (x / n) * n == x && (y / n) * n == y;
  }

  lemma RatioBound(m: real, n: real)
    requires 0.0 < m <= n
    ensures 0.0 < m / n <= 1.0 && (m / n) * n == m
  {
  }
}
