/**
 * `RagFusion.reciprocal_rank_fusion`: the documents returned by several
 * retrievers are fused by Reciprocal Rank Fusion.  Every hit of a document at
 * 0-based rank `r` in one list adds `1 / (r + k)` to that document's score;
 * the distinct documents are sorted by falling score, ties in the order they
 * were first seen, and the page contents of the best `topk` are joined with
 * newlines.  Scores are exact rationals.
 */
module RagFusion {
  import PyStr

  /** A retrieved document; two documents are the same when their values are. */
  datatype Document = Document(pageContent: string, metadata: map<string, string>)

  /** One hit: a document and its 0-based rank in the list that returned it. */
  datatype Hit = Hit(doc: Document, rank: nat)

  /** A distinct document with its fused score. */
  datatype Scored = Scored(doc: Document, score: real)

  // ---------------------------------------------------------------------------
  // Hits and scores
  // ---------------------------------------------------------------------------

  /** The hits of one list, rank by rank. */
  function Ranked(docs: seq<Document>): seq<Hit> {
    seq(|docs|, r requires 0 <= r < |docs| => Hit(docs[r], r))
  }

  /** Every hit of every list, in the order the two loops visit them. */
  function Hits(results: seq<seq<Document>>): seq<Hit> {
    if results == [] then [] else Hits(results[..|results| - 1]) + Ranked(results[|results| - 1])
  }

  /** What one hit at rank `rank` adds to its document's score. */
  function Contribution(rank: nat, k: nat): real
    requires k > 0
  {
    1.0 / ((rank + k) as real)
  }

  /** The fused score of `d`: the sum of the contributions of its hits. */
  function Score(hits: seq<Hit>, d: Document, k: nat): real
    requires k > 0
  {
    if hits == [] then 0.0
    else
      var h := hits[|hits| - 1];
      Score(hits[..|hits| - 1], d, k) + (if h.doc == d then Contribution(h.rank, k) else 0.0)
  }

  /** Some hit is of `d`. */
  predicate WasHit(hits: seq<Hit>, d: Document) {
    exists i :: 0 <= i < |hits| && hits[i].doc == d
  }

  /** The distinct documents in the order of their first hit: the order of the score dictionary. */
  function FirstSeen(hits: seq<Hit>): seq<Document> {
    if hits == [] then []
    else
      var seen := FirstSeen(hits[..|hits| - 1]);
      var d := hits[|hits| - 1].doc;
      if d in seen then seen else seen + [d]
  }

  /** The documents in the score dictionary are exactly those hit, each once. */
  lemma {:induction false} FirstSeenSpec(hits: seq<Hit>)
    ensures forall d :: d in FirstSeen(hits) <==> WasHit(hits, d)
    ensures forall i, j :: 0 <= i < j < |FirstSeen(hits)| ==> FirstSeen(hits)[i] != FirstSeen(hits)[j]
  {
    if hits != [] {
      var prev := hits[..|hits| - 1];
      FirstSeenSpec(prev);
      forall d | WasHit(hits, d)
        ensures d in FirstSeen(hits)
      {
        var i :| 0 <= i < |hits| && hits[i].doc == d;
        if i < |prev| {
          assert prev[i].doc == d;
        }
      }
      forall d | d in FirstSeen(hits)
        ensures WasHit(hits, d)
      {
        if d in FirstSeen(prev) {
          var i :| 0 <= i < |prev| && prev[i].doc == d;
          assert hits[i].doc == d;
        } else {
          assert hits[|hits| - 1].doc == d;
        }
      }
    }
  }

  /** A document that was never hit scores nothing. */
  lemma {:induction false} ScoreOfUnseen(hits: seq<Hit>, d: Document, k: nat)
    requires k > 0
    requires d !in FirstSeen(hits)
    ensures Score(hits, d, k) == 0.0
  {
    if hits != [] {
      var prev := hits[..|hits| - 1];
      assert d !in FirstSeen(prev);
      ScoreOfUnseen(prev, d, k);
    }
  }

  /** Scores add up over consecutive batches of hits. */
  lemma {:induction false} ScoreAppend(a: seq<Hit>, b: seq<Hit>, d: Document, k: nat)
    requires k > 0
    ensures Score(a + b, d, k) == Score(a, d, k) + Score(b, d, k)
    decreases |b|
  {
    if b == [] {
      assert a + b == a;
    } else {
      assert (a + b)[..|a + b| - 1] == a + b[..|b| - 1];
      ScoreAppend(a, b[..|b| - 1], d, k);
    }
  }

  lemma {:induction false} ScoreNonNegative(hits: seq<Hit>, d: Document, k: nat)
    requires k > 0
    ensures Score(hits, d, k) >= 0.0
  {
    if hits != [] {
      ScoreNonNegative(hits[..|hits| - 1], d, k);
    }
  }

  /** The score is the part before a hit, that hit's share and the part after it. */
  lemma ScoreAround(hits: seq<Hit>, i: nat, d: Document, k: nat)
    requires k > 0 && i < |hits|
    ensures Score(hits, d, k) ==
            Score(hits[..i], d, k) + (if hits[i].doc == d then Contribution(hits[i].rank, k) else 0.0)
            + Score(hits[i + 1..], d, k)
  {
    assert hits == hits[..i] + [hits[i]] + hits[i + 1..];
    ScoreAppend(hits[..i] + [hits[i]], hits[i + 1..], d, k);
    ScoreAppend(hits[..i], [hits[i]], d, k);
    assert [hits[i]][..0] == [];
  }

  /**
   * Every hit is credited, two hits of one document (in the same list or in
   * two lists) are credited twice, and a document hit at all scores above 0.
   */
  lemma ScoreCreditsEveryHit(hits: seq<Hit>, i: nat, j: nat, d: Document, k: nat)
    requires k > 0 && i < j < |hits|
    requires hits[i].doc == d && hits[j].doc == d
    ensures Score(hits, d, k) >= Contribution(hits[i].rank, k) + Contribution(hits[j].rank, k)
    ensures Score(hits, d, k) > 0.0
  {
    ScoreAround(hits, j, d, k);
    ScoreAround(hits[..j], i, d, k);
    assert hits[..j][..i] == hits[..i] && hits[..j][i] == hits[i];
    ScoreNonNegative(hits[..i], d, k);
    ScoreNonNegative(hits[..j][i + 1..], d, k);
    ScoreNonNegative(hits[j + 1..], d, k);
  }

  /** Within one list an earlier rank weighs strictly more than a later one. */
  lemma EarlierRankWeighsMore(r1: nat, r2: nat, k: nat)
    requires k > 0 && r1 < r2
    ensures Contribution(r1, k) > Contribution(r2, k) > 0.0
  {
    ReciprocalDecreasing((r1 + k) as real, (r2 + k) as real);
  }

  /** Multiplying by a positive number keeps the order. */
  lemma MulMonotone(c: real, u: real, v: real)
    requires c > 0.0
    ensures u < v ==> u * c < v * c
    ensures u <= v ==> u * c <= v * c
  {
  }

  /** Inverses of `0 < a < b` are ordered the other way and positive. */
  lemma InverseOrder(a: real, b: real, x: real, y: real)
    requires 0.0 < a < b && x * a == 1.0 && y * b == 1.0
    ensures x > y > 0.0
  {
    MulMonotone(b, y, 0.0);
    MulMonotone(y, a, b);
    MulMonotone(a, x, y);
  }

  /** `1/a > 1/b > 0` for `0 < a < b`. */
  lemma ReciprocalDecreasing(a: real, b: real)
    requires 0.0 < a < b
    ensures 1.0 / a > 1.0 / b > 0.0
  {
    InverseOrder(a, b, 1.0 / a, 1.0 / b);
  }

  // ---------------------------------------------------------------------------
  // The stable descending sort
  // ---------------------------------------------------------------------------

  /** Puts `x` after every entry whose score is at least its own. */
  function Insert(s: seq<Scored>, x: Scored): seq<Scored> {
    if s == [] || s[|s| - 1].score >= x.score then s + [x]
    else Insert(s[..|s| - 1], x) + [s[|s| - 1]]
  }

  /** `sorted(items, key=score, reverse=True)`: stable, highest score first. */
  function SortDescending(items: seq<Scored>): seq<Scored> {
    if items == [] then [] else Insert(SortDescending(items[..|items| - 1]), items[|items| - 1])
  }

  predicate Descending(s: seq<Scored>) {
    forall i, j :: 0 <= i < j < |s| ==> s[i].score >= s[j].score
  }

  /** The entries of `s` with score `v`, in their order in `s`. */
  function WithScore(s: seq<Scored>, v: real): seq<Scored> {
    if s == [] then []
    else WithScore(s[..|s| - 1], v) + (if s[|s| - 1].score == v then [s[|s| - 1]] else [])
  }

  lemma {:induction false} WithScoreAppend(a: seq<Scored>, b: seq<Scored>, v: real)
    ensures WithScore(a + b, v) == WithScore(a, v) + WithScore(b, v)
    decreases |b|
  {
    if b == [] {
      assert a + b == a;
    } else {
      assert (a + b)[..|a + b| - 1] == a + b[..|b| - 1];
      WithScoreAppend(a, b[..|b| - 1], v);
    }
  }

  lemma {:induction false} InsertPermutes(s: seq<Scored>, x: Scored)
    ensures multiset(Insert(s, x)) == multiset(s) + multiset{x}
  {
    if !(s == [] || s[|s| - 1].score >= x.score) {
      InsertPermutes(s[..|s| - 1], x);
      assert s == s[..|s| - 1] + [s[|s| - 1]];
    }
  }

  lemma {:induction false} InsertKeepsDescending(s: seq<Scored>, x: Scored)
    requires Descending(s)
    ensures Descending(Insert(s, x))
  {
    if !(s == [] || s[|s| - 1].score >= x.score) {
      var init, last := s[..|s| - 1], s[|s| - 1];
      InsertKeepsDescending(init, x);
      InsertPermutes(init, x);
      var r := Insert(init, x);
      forall y | y in r
        ensures y.score >= last.score
      {
        assert y in multiset(r);
        if y != x {
          assert y in multiset(init);
          var i :| 0 <= i < |init| && init[i] == y;
          assert s[i] == y;
        }
      }
      assert forall i :: 0 <= i < |r| ==> r[i] in r;
    }
  }

  /** Inserting keeps the relative order of every score class and puts `x` last in its own. */
  lemma {:induction false} InsertStable(s: seq<Scored>, x: Scored, v: real)
    ensures WithScore(Insert(s, x), v) == WithScore(s, v) + (if x.score == v then [x] else [])
  {
    if s == [] || s[|s| - 1].score >= x.score {
      WithScoreAppend(s, [x], v);
      assert [x][..0] == [];
    } else {
      var init, last := s[..|s| - 1], s[|s| - 1];
      InsertStable(init, x, v);
      WithScoreAppend(Insert(init, x), [last], v);
      assert [last][..0] == [];
    }
  }

  /** The sort returns a descending permutation that keeps every score class in input order. */
  lemma {:induction false} SortDescendingSpec(items: seq<Scored>)
    ensures multiset(SortDescending(items)) == multiset(items)
    ensures Descending(SortDescending(items))
    ensures forall v :: WithScore(SortDescending(items), v) == WithScore(items, v)
  {
    if items != [] {
      var init, last := items[..|items| - 1], items[|items| - 1];
      SortDescendingSpec(init);
      InsertPermutes(SortDescending(init), last);
      assert items == init + [last];
      InsertKeepsDescending(SortDescending(init), last);
      forall v
        ensures WithScore(SortDescending(items), v) == WithScore(items, v)
      {
        InsertStable(SortDescending(init), last, v);
      }
    }
  }

  // ---------------------------------------------------------------------------
  // The fused ranking and its text
  // ---------------------------------------------------------------------------

  /** The score dictionary's items, in insertion order. */
  function Items(hits: seq<Hit>, k: nat): seq<Scored>
    requires k > 0
  {
    var docs := FirstSeen(hits);
    seq(|docs|, i requires 0 <= i < |docs| => Scored(docs[i], Score(hits, docs[i], k)))
  }

  /** `reranked_results`: the items sorted by falling score, stably. */
  function Reranked(results: seq<seq<Document>>, k: nat): seq<Scored>
    requires k > 0
  {
    SortDescending(Items(Hits(results), k))
  }

  function PageContents(s: seq<Scored>): seq<string> {
    seq(|s|, i requires 0 <= i < |s| => s[i].doc.pageContent)
  }

  /** The returned text: the best `topk` page contents joined with newlines. */
  function FusedText(results: seq<seq<Document>>, k: nat, topk: int): string
    requires k > 0
  {
    PyStr.Join(PageContents(PyStr.SliceTo(Reranked(results, k), topk)), "\n")
  }

  /** The documents of a ranking, in its order. */
  function DocsOf(s: seq<Scored>): seq<Document> {
    seq(|s|, i requires 0 <= i < |s| => s[i].doc)
  }

  /** The ranking is in non-increasing score order, and equal scores keep the dictionary's order. */
  lemma RerankedOrder(results: seq<seq<Document>>, k: nat)
    requires k > 0
    ensures Descending(Reranked(results, k))
    ensures forall v :: WithScore(Reranked(results, k), v) == WithScore(Items(Hits(results), k), v)
  {
    SortDescendingSpec(Items(Hits(results), k));
  }

  /** The entries of the ranking are the dictionary's items. */
  lemma RerankedSameItems(results: seq<seq<Document>>, k: nat)
    requires k > 0
    ensures forall e :: e in Reranked(results, k) <==> e in Items(Hits(results), k)
    ensures multiset(Reranked(results, k)) == multiset(Items(Hits(results), k))
  {
    var items := Items(Hits(results), k);
    var r := Reranked(results, k);
    SortDescendingSpec(items);
    forall e
      ensures e in r <==> e in items
    {
      assert e in r <==> e in multiset(r);
      assert e in items <==> e in multiset(items);
    }
  }

  /** Each document hit appears in the ranking, with its fused score, and nothing else does. */
  lemma RerankedScores(results: seq<seq<Document>>, k: nat)
    requires k > 0
    ensures forall e :: e in Reranked(results, k) ==> e.score == Score(Hits(results), e.doc, k)
    ensures forall d :: d in DocsOf(Reranked(results, k)) <==> WasHit(Hits(results), d)
  {
    var hits := Hits(results);
    var items := Items(hits, k);
    var r := Reranked(results, k);
    RerankedSameItems(results, k);
    FirstSeenSpec(hits);
    forall d
      ensures d in DocsOf(r) <==> d in FirstSeen(hits)
    {
      if d in FirstSeen(hits) {
        var a :| 0 <= a < |FirstSeen(hits)| && FirstSeen(hits)[a] == d;
        assert items[a] in r;
        var i :| 0 <= i < |r| && r[i] == items[a];
        assert DocsOf(r)[i] == d;
      }
      if d in DocsOf(r) {
        var i :| 0 <= i < |r| && DocsOf(r)[i] == d;
        assert r[i] in items;
      }
    }
  }

  /** No document appears twice in the ranking. */
  lemma RerankedDistinct(results: seq<seq<Document>>, k: nat)
    requires k > 0
    ensures forall i, j :: 0 <= i < j < |Reranked(results, k)| ==> Reranked(results, k)[i].doc != Reranked(results, k)[j].doc
  {
    var items := Items(Hits(results), k);
    var r := Reranked(results, k);
    RerankedSameItems(results, k);
    ItemsDistinct(Hits(results), k);
    forall i, j | 0 <= i < j < |r|
      ensures r[i].doc != r[j].doc
    {
      assert r[i] in items && r[j] in items;
      var a :| 0 <= a < |items| && items[a] == r[i];
      DistinctCountOnce(items, a);
      assert r[i].doc == r[j].doc ==> r[i] == r[j];
      MultisetTwice(r, i, j);
    }
  }

  /** In the items, whose documents are distinct, each entry occurs once. */
  lemma DistinctCountOnce(items: seq<Scored>, a: nat)
    requires a < |items|
    requires forall i, j :: 0 <= i < j < |items| ==> items[i].doc != items[j].doc
    ensures multiset(items)[items[a]] == 1
  {
    assert items == items[..a] + [items[a]] + items[a + 1..];
    forall i | 0 <= i < a
      ensures items[..a][i] != items[a]
    {
      assert items[i].doc != items[a].doc;
    }
    forall i | a + 1 <= i < |items|
      ensures items[i] != items[a]
    {
      assert items[i].doc != items[a].doc;
    }
    assert multiset(items) == multiset(items[..a]) + multiset{items[a]} + multiset(items[a + 1..]);
  }

  /** Two positions holding the same entry make it occur at least twice. */
  lemma MultisetTwice(s: seq<Scored>, i: nat, j: nat)
    requires i < j < |s|
    ensures s[i] == s[j] ==> multiset(s)[s[i]] >= 2
  {
    assert s == s[..j] + [s[j]] + s[j + 1..];
    assert s[..j][i] == s[i];
    assert multiset(s) == multiset(s[..j]) + multiset{s[j]} + multiset(s[j + 1..]);
  }

  lemma ItemsDistinct(hits: seq<Hit>, k: nat)
    requires k > 0
    ensures forall i, j :: 0 <= i < j < |Items(hits, k)| ==> Items(hits, k)[i].doc != Items(hits, k)[j].doc
  {
    FirstSeenSpec(hits);
  }

  /** No hits at all, whether no lists or only empty ones, gives the empty text. */
  lemma FusedTextOfNoHits(results: seq<seq<Document>>, k: nat, topk: int)
    requires k > 0
    requires Hits(results) == []
    ensures FusedText(results, k, topk) == ""
  {
    assert Items(Hits(results), k) == [];
  }

  /** The text is made of the page contents of the first `topk` entries of the ranking, in order. */
  lemma FusedTextTakesTop(results: seq<seq<Document>>, k: nat, topk: nat)
    requires k > 0
    ensures var top := PyStr.SliceTo(Reranked(results, k), topk);
            && |top| == (if topk < |Reranked(results, k)| then topk else |Reranked(results, k)|)
            && top == Reranked(results, k)[..|top|]
            && FusedText(results, k, topk) == PyStr.Join(PageContents(top), "\n")
  {
  }

  /**
   * The score dictionary and its insertion order as they stand after `hits`:
   * the keys are the documents hit so far, in first-seen order, each mapped
   * to its score.
   */
  ghost predicate Tracks(hits: seq<Hit>, order: seq<Document>, scores: map<Document, real>, k: nat)
    requires k > 0
  {
    && order == FirstSeen(hits)
    && (forall d :: d in scores <==> d in order)
    && (forall d :: d in scores ==> scores[d] == Score(hits, d, k))
  }

  /**
   * Recording one more hit, as the inner loop's body does (a new document
   * enters at 0 and is appended to the order; then its score grows by the
   * hit's contribution), keeps the dictionary in step with the hits.
   */
  lemma RecordHit(hits: seq<Hit>, order: seq<Document>, scores: map<Document, real>, doc: Document, rank: nat, k: nat)
    requires k > 0 && Tracks(hits, order, scores, k)
    ensures var base := if doc in scores then scores else scores[doc := 0.0];
            var order' := if doc in scores then order else order + [doc];
            Tracks(hits + [Hit(doc, rank)], order', base[doc := base[doc] + Contribution(rank, k)], k)
  {
    var more := hits + [Hit(doc, rank)];
    assert more[..|hits|] == hits;
    if doc !in scores {
      ScoreOfUnseen(hits, doc, k);
    }
  }

  /** The inner loop's next hit extends the hits seen so far. */
  lemma NextHit(results: seq<seq<Document>>, i: nat, rank: nat)
    requires i < |results| && rank < |results[i]|
    ensures Hits(results[..i]) + Ranked(results[i])[..rank] + [Hit(results[i][rank], rank)]
            == Hits(results[..i]) + Ranked(results[i])[..rank + 1]
  {
    var r := Ranked(results[i]);
    assert r[..rank + 1] == r[..rank] + [Hit(results[i][rank], rank)];
  }

  /** After a whole list, the hits are those of the lists up to and including it. */
  lemma NextList(results: seq<seq<Document>>, i: nat)
    requires i < |results|
    ensures Hits(results[..i]) + Ranked(results[i])[..|results[i]|] == Hits(results[..i + 1])
  {
    assert results[..i + 1][..i] == results[..i];
    assert Ranked(results[i])[..|results[i]|] == Ranked(results[i]);
  }

  /**
   * The nested loops fill the score dictionary hit by hit; the sort, the cut
   * to `topk` and the join follow.
   */
  method ReciprocalRankFusion(results: seq<seq<Document>>, k: nat, topk: int) returns (text: string)
    requires k > 0
    ensures text == FusedText(results, k, topk)
  {
    ghost var hits: seq<Hit> := [];
    var order: seq<Document> := [];
    var scores: map<Document, real> := map[];
    var i := 0;
    while i < |results|
      invariant 0 <= i <= |results|
      invariant hits == Hits(results[..i])
      invariant Tracks(hits, order, scores, k)
    {
      var docs := results[i];
      var rank := 0;
      while rank < |docs|
        invariant 0 <= rank <= |docs|
        invariant hits == Hits(results[..i]) + Ranked(docs)[..rank]
        invariant Tracks(hits, order, scores, k)
      {
        var doc := docs[rank];
        RecordHit(hits, order, scores, doc, rank, k);
        if doc !in scores {
          scores := scores[doc := 0.0];
          order := order + [doc];
        }
        scores := scores[doc := scores[doc] + Contribution(rank, k)];
        NextHit(results, i, rank);
        hits := hits + [Hit(doc, rank)];
        rank := rank + 1;
      }
      NextList(results, i);
      i := i + 1;
    }
    assert results[..|results|] == results;
    var items := seq(|order|, j requires 0 <= j < |order| => Scored(order[j], scores[order[j]]));
    assert items == Items(hits, k);
    var top := PyStr.SliceTo(SortDescending(items), topk);
    text := PyStr.Join(seq(|top|, j requires 0 <= j < |top| => top[j].doc.pageContent), "\n");
  }
}
