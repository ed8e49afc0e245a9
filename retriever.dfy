/** Hybrid retrieval: the BM25 tokenizer, the ranking step of the BM25
    search, Reciprocal Rank Fusion of the vector and BM25 hit lists, and the
    projection of the fused hits onto chunk texts and metadata. The scores
    themselves (vector distances, BM25 scores) are inputs. */
module Retriever {
  import opened Types
  import opened Text
  import opened Seqs

  /** The RRF constant `k` every caller uses. */
  const RrfK: nat := 60

  datatype Origin = Vector(distance: real) | Bm25(score: real)

  /** One search hit; `origin` is the `"source"` tag with its score. */
  datatype Hit = Hit(id: string, document: string, metadata: Metadata, origin: Origin)

  // ---------------------------------------------------------------- tokenizer

  /** `_tokenize`: the `\w+` runs of the lowercased text. */
  function Tokenize(text: string): (tokens: seq<string>)
    ensures forall t :: t in tokens ==> t != [] && forall c :: c in t ==> IsWordChar(c) && !IsUpper(c)
    ensures Concat(tokens) == Filter(Lower(text), IsWordChar)
  {
    var lowered := Lower(text);
    assert forall c :: c in lowered ==> !IsUpper(c);
    RunsChars(lowered, [], IsWordChar);
    RunsConcat(lowered, [], IsWordChar);
    Runs(lowered, [], IsWordChar)
  }

  /** A word made only of word characters is one token, lowercased. */
  lemma TokenizeWord(w: string)
    requires w != [] && forall c :: c in w ==> IsWordChar(c)
    ensures Tokenize(w) == [Lower(w)]
  {
    var lowered := Lower(w);
    forall c | c in lowered ensures IsWordChar(c) {
      var i :| 0 <= i < |lowered| && lowered[i] == c;
      assert w[i] in w;
    }
    RunsAllKept(lowered, [], IsWordChar);
    assert [] + lowered == lowered;
  }

  /** Tokens are the maximal runs: a non-word character separates the
      tokens on its left from those on its right, and no token spans it. */
  lemma TokenizeSplit(a: string, c: char, b: string)
    requires !IsWordChar(c)
    ensures Tokenize(a + [c] + b) == Tokenize(a) + Tokenize(b)
  {
    assert Lower(a + [c] + b) == Lower(a) + [LowerChar(c)] + Lower(b);
    RunsSplit(Lower(a), LowerChar(c), Lower(b), [], IsWordChar);
  }

  // ---------------------------------------------------------------- BM25 ranking

  function ScoreAt(scores: seq<real>, i: nat): real {
    if i < |scores| then scores[i] else 0.0
  }

  function ScoreKey(scores: seq<real>): nat -> real {
    (i: nat) => ScoreAt(scores, i)
  }

  function Range(n: nat): (r: seq<nat>)
    ensures |r| == n && forall i :: 0 <= i < n ==> r[i] == i
  {
    seq(n, i requires 0 <= i < n => i)
  }

  /** `sorted(range(len(scores)), key=score, reverse=True)[:top_k]`. */
  function RankedIndices(scores: seq<real>, topK: int): (r: seq<nat>)
    ensures topK >= 0 ==> |r| <= topK
    ensures NoDup(r)
    ensures Descending(r, ScoreKey(scores))
    ensures forall j :: 0 <= j < |r| ==> r[j] < |scores|
    ensures forall i :: i in r ==> i < |scores|
  {
    var range := Range(|scores|);
    var all := SortDesc<nat>(range, ScoreKey(scores));
    SortDescSpec<nat>(range, ScoreKey(scores));
    NoDupPermutation<nat>(range, all);
    forall j | 0 <= j < |all| ensures all[j] < |scores| {
      assert all[j] in all;
      assert all[j] in range;
    }
    Take(all, topK)
  }

  /** The ranked indices whose score is positive, in ranked order. */
  function PositiveIndices(ranked: seq<nat>, scores: seq<real>): (r: seq<nat>)
    ensures |r| <= |ranked|
    ensures forall i :: i in r ==> i in ranked && ScoreAt(scores, i) > 0.0
    ensures forall j :: 0 <= j < |r| ==> r[j] in ranked
  {
    if ranked == [] then []
    else
      var n := |ranked| - 1;
      var p := PositiveIndices(ranked[..n], scores);
      if ScoreAt(scores, ranked[n]) > 0.0 then p + [ranked[n]] else p
  }

  /** Keeping some of a list's elements keeps them apart and in order. */
  lemma {:induction false} PositiveIndicesOrder(ranked: seq<nat>, scores: seq<real>)
    requires NoDup(ranked) && Descending(ranked, ScoreKey(scores))
    ensures NoDup(PositiveIndices(ranked, scores))
    ensures Descending(PositiveIndices(ranked, scores), ScoreKey(scores))
  {
    if ranked != [] {
      var n := |ranked| - 1;
      var pre, x := ranked[..n], ranked[n];
      NoDupPrefix(ranked, n);
      DescendingPrefix(ranked, n, ScoreKey(scores));
      PositiveIndicesOrder(pre, scores);
      var p := PositiveIndices(pre, scores);
      if ScoreAt(scores, x) > 0.0 {
        forall y | y in p ensures y != x && ScoreKey(scores)(y) >= ScoreKey(scores)(x) {
          var a :| 0 <= a < n && pre[a] == y;
          assert ranked[a] == y;
        }
        NoDupSnoc(p, x);
        DescendingSnoc(p, x, ScoreKey(scores));
      }
    }
  }

  function Bm25Hit(corpus: seq<Chunk>, scores: seq<real>, i: nat): Hit
    requires i < |corpus|
  {
    Hit(corpus[i].id, corpus[i].text, corpus[i].meta, Bm25(ScoreAt(scores, i)))
  }

  function Bm25HitsOf(corpus: seq<Chunk>, scores: seq<real>, idx: seq<nat>): seq<Hit>
    requires forall j :: 0 <= j < |idx| ==> idx[j] < |corpus|
  {
    seq(|idx|, j requires 0 <= j < |idx| => Bm25Hit(corpus, scores, idx[j]))
  }

  /** The ranked indices `retrieve_bm25` keeps, all within the corpus. */
  function Bm25Indices(scores: seq<real>, topK: int): (idx: seq<nat>)
    ensures forall j :: 0 <= j < |idx| ==> idx[j] < |scores|
  {
    var ranked := RankedIndices(scores, topK);
    var idx := PositiveIndices(ranked, scores);
    assert forall j :: 0 <= j < |idx| ==> idx[j] in ranked by {
      assert forall j :: 0 <= j < |idx| ==> idx[j] in idx;
    }
    idx
  }

  /** The hits `retrieve_bm25` returns for the given BM25 scores of `corpus`. */
  function Bm25Hits(corpus: seq<Chunk>, scores: seq<real>, topK: int): seq<Hit>
    requires |scores| == |corpus|
  {
    Bm25HitsOf(corpus, scores, Bm25Indices(scores, topK))
  }

  /** At most `top_k` hits, only positive scores, best first, each the chunk
      at a distinct index of the corpus with that chunk's own BM25 score. */
  lemma Bm25HitsSpec(corpus: seq<Chunk>, scores: seq<real>, topK: int)
    requires |scores| == |corpus|
    ensures var r := Bm25Hits(corpus, scores, topK);
      && (topK >= 0 ==> |r| <= topK)
      && (forall j :: 0 <= j < |r| ==> r[j].origin.Bm25? && r[j].origin.score > 0.0)
      && (forall i, j :: 0 <= i < j < |r| ==> r[i].origin.score >= r[j].origin.score)
      && |r| == |Bm25Indices(scores, topK)|
      && (forall j :: 0 <= j < |r| ==> r[j] == Bm25Hit(corpus, scores, Bm25Indices(scores, topK)[j]))
      && NoDup(Bm25Indices(scores, topK))
  {
    var ranked := RankedIndices(scores, topK);
    var idx := Bm25Indices(scores, topK);
    PositiveIndicesOrder(ranked, scores);
    var r := Bm25Hits(corpus, scores, topK);
    forall j | 0 <= j < |r| ensures r[j].origin.score > 0.0 {
      assert idx[j] in idx;
    }
    forall i, j | 0 <= i < j < |r| ensures r[i].origin.score >= r[j].origin.score {
      assert ScoreKey(scores)(idx[i]) >= ScoreKey(scores)(idx[j]);
    }
  }

  /** A positive-scoring index of the ranking is kept by the filter. */
  lemma {:induction false} PositiveIndicesHas(ranked: seq<nat>, scores: seq<real>, x: nat)
    requires x in ranked && ScoreAt(scores, x) > 0.0
    ensures x in PositiveIndices(ranked, scores)
  {
    var n := |ranked| - 1;
    if x != ranked[n] {
      var a :| 0 <= a < |ranked| && ranked[a] == x;
      assert ranked[..n][a] == x;
      PositiveIndicesHas(ranked[..n], scores, x);
    }
  }

  /** When every ranked index scores above zero the filter keeps them all. */
  lemma {:induction false} PositiveIndicesAll(ranked: seq<nat>, scores: seq<real>)
    requires forall j :: 0 <= j < |ranked| ==> ScoreAt(scores, ranked[j]) > 0.0
    ensures PositiveIndices(ranked, scores) == ranked
  {
    if ranked != [] {
      var n := |ranked| - 1;
      PositiveIndicesAll(ranked[..n], scores);
      assert ranked[..n] + [ranked[n]] == ranked;
    }
  }

  /** The kept indices are the best ones: an index with a positive score
      that is not kept scores no higher than any kept index, and it can only
      be missing because `top_k` indices were kept. */
  lemma Bm25IndicesBest(scores: seq<real>, topK: int, i: nat)
    requires topK >= 0 && i < |scores| && scores[i] > 0.0
    requires i !in Bm25Indices(scores, topK)
    ensures forall j :: 0 <= j < |Bm25Indices(scores, topK)| ==> ScoreAt(scores, Bm25Indices(scores, topK)[j]) >= scores[i]
    ensures |Bm25Indices(scores, topK)| == topK
  {
    var key := ScoreKey(scores);
    var range := Range(|scores|);
    var all := SortDesc<nat>(range, key);
    SortDescSpec<nat>(range, key);
    var ranked := RankedIndices(scores, topK);
    assert ranked == Take(all, topK);
    assert range[i] == i;
    assert i in all;
    if i in ranked {
      PositiveIndicesHas(ranked, scores, i);
    }
    assert i !in Take(all, topK);
    DescendingPrefixTop<nat>(all, topK, i, key);
    assert forall j :: 0 <= j < |ranked| ==> ScoreAt(scores, ranked[j]) > 0.0 by {
      assert forall j :: 0 <= j < |ranked| ==> ranked[j] in ranked;
    }
    PositiveIndicesAll(ranked, scores);
    assert Bm25Indices(scores, topK) == ranked;
    assert forall j :: 0 <= j < |ranked| ==> key(ranked[j]) >= key(i) by {
      assert forall j :: 0 <= j < |ranked| ==> ranked[j] in ranked;
    }
    assert |all| > topK;
  }

  /** The same for the hits: a corpus chunk with a positive score that is
      not returned scores no higher than every returned hit, and exactly
      `top_k` hits were returned. */
  lemma Bm25HitsBest(corpus: seq<Chunk>, scores: seq<real>, topK: int, i: nat)
    requires |scores| == |corpus|
    requires topK >= 0 && i < |scores| && scores[i] > 0.0
    requires i !in Bm25Indices(scores, topK)
    ensures var r := Bm25Hits(corpus, scores, topK);
      && |r| == topK
      && forall j :: 0 <= j < |r| ==> r[j].origin.score >= scores[i]
  {
    Bm25IndicesBest(scores, topK, i);
  }

  lemma Bm25HitsOfSnoc(corpus: seq<Chunk>, scores: seq<real>, idx: seq<nat>, x: nat)
    requires forall j :: 0 <= j < |idx| ==> idx[j] < |corpus|
    requires x < |corpus|
    ensures Bm25HitsOf(corpus, scores, idx + [x]) == Bm25HitsOf(corpus, scores, idx) + [Bm25Hit(corpus, scores, x)]
  {
    var t := idx + [x];
    assert forall j :: 0 <= j < |idx| ==> t[j] == idx[j];
  }

  /** The ranking and filter loop of `retrieve_bm25`, given the scores
      `bm25.get_scores` assigns to each chunk of the corpus. */
  method RetrieveBm25(corpus: seq<Chunk>, scores: seq<real>, topK: int) returns (hits: seq<Hit>)
    requires |scores| == |corpus|
    ensures hits == Bm25Hits(corpus, scores, topK)
  {
    if |corpus| == 0 {
      return [];
    }
    var ranked := RankedIndices(scores, topK);
    hits := [];
    for n := 0 to |ranked|
      invariant hits == Bm25HitsOf(corpus, scores, PositiveIndices(ranked[..n], scores))
    {
      var idx := ranked[n];
      ghost var kept := PositiveIndices(ranked[..n], scores);
      assert ranked[..n + 1][..n] == ranked[..n];
      assert ranked[n] in ranked;
      if scores[idx] > 0.0 {
        assert PositiveIndices(ranked[..n + 1], scores) == kept + [idx];
        Bm25HitsOfSnoc(corpus, scores, kept, idx);
        hits := hits + [Bm25Hit(corpus, scores, idx)];
      } else {
        assert PositiveIndices(ranked[..n + 1], scores) == kept;
      }
    }
    assert ranked[..|ranked|] == ranked;
  }

  // ---------------------------------------------------------------- fusion

  function IdsOf(hits: seq<Hit>): (r: seq<string>)
    ensures |r| == |hits| && forall i :: 0 <= i < |hits| ==> r[i] == hits[i].id
  {
    seq(|hits|, i requires 0 <= i < |hits| => hits[i].id)
  }

  lemma IdsOfSnoc(hits: seq<Hit>, n: nat)
    requires n < |hits|
    ensures IdsOf(hits[..n + 1]) == IdsOf(hits[..n]) + [hits[n].id]
  {
  }

  lemma IdsAfter(seen: seq<string>, hits: seq<Hit>)
    requires hits != []
    ensures seen + IdsOf(hits) == (seen + IdsOf(hits[..|hits| - 1])) + [hits[|hits| - 1].id]
  {
    IdsOfSnoc(hits, |hits| - 1);
    assert hits[..|hits|] == hits;
  }

  /** The RRF contribution of one list to `id`: the sum of `1 / (k + rank + 1)`
      over the ranks at which `id` occurs. */
  function RankSum(hits: seq<Hit>, id: string, k: nat): real {
    if hits == [] then 0.0
    else
      var n := |hits| - 1;
      RankSum(hits[..n], id, k) + (if hits[n].id == id then Contribution(k, n) else 0.0)
  }

  /** `1.0 / (k + rank + 1)`. */
  function Contribution(k: nat, rank: nat): (c: real)
    ensures c > 0.0
  {
    1.0 / ((k + rank + 1) as real)
  }

  lemma {:induction false} RankSumAbsent(hits: seq<Hit>, id: string, k: nat)
    requires id !in IdsOf(hits)
    ensures RankSum(hits, id, k) == 0.0
  {
    if hits != [] {
      var n := |hits| - 1;
      IdsOfSnoc(hits, n);
      RankSumAbsent(hits[..n], id, k);
    }
  }

  /** An id that occurs in a list gets a positive contribution from it. */
  lemma {:induction false} RankSumPresent(hits: seq<Hit>, id: string, k: nat)
    requires id in IdsOf(hits)
    ensures RankSum(hits, id, k) > 0.0
  {
    var n := |hits| - 1;
    IdsOfSnoc(hits, n);
    RankSumNonNegative(hits[..n], id, k);
    if hits[n].id != id {
      RankSumPresent(hits[..n], id, k);
    }
  }

  lemma {:induction false} RankSumNonNegative(hits: seq<Hit>, id: string, k: nat)
    ensures RankSum(hits, id, k) >= 0.0
  {
    if hits != [] {
      RankSumNonNegative(hits[..|hits| - 1], id, k);
    }
  }

  /** The fused score of `id`. */
  function RrfScore(vh: seq<Hit>, bh: seq<Hit>, k: nat, id: string): real {
    RankSum(vh, id, k) + RankSum(bh, id, k)
  }

  function RrfKey(vh: seq<Hit>, bh: seq<Hit>, k: nat): string -> real {
    id => RrfScore(vh, bh, k, id)
  }

  /** The last hit carrying `id`: `doc_map[id] = hit` keeps overwriting. */
  function LastWith(hits: seq<Hit>, id: string): (h: Hit)
    requires id in IdsOf(hits)
    ensures h in hits && h.id == id
  {
    var n := |hits| - 1;
    IdsOfSnoc(hits, n);
    if hits[n].id == id then hits[n] else LastWith(hits[..n], id)
  }

  /** The first hit carrying `id`: `if id not in doc_map` keeps the earliest. */
  function FirstWith(hits: seq<Hit>, id: string): (h: Hit)
    requires id in IdsOf(hits)
    ensures h in hits && h.id == id
  {
    var n := |hits| - 1;
    IdsOfSnoc(hits, n);
    if id in IdsOf(hits[..n]) then FirstWith(hits[..n], id) else hits[n]
  }

  /** The record kept for `id`: from the vector list when it occurs there. */
  function Pick(vh: seq<Hit>, bh: seq<Hit>, id: string): (h: Hit)
    requires id in IdsOf(vh) + IdsOf(bh)
    ensures h.id == id && (h in vh || h in bh)
  {
    if id in IdsOf(vh) then LastWith(vh, id) else FirstWith(bh, id)
  }

  /** The keys of `scores` in insertion order. */
  function FusedIds(vh: seq<Hit>, bh: seq<Hit>): seq<string> {
    Distinct(IdsOf(vh) + IdsOf(bh))
  }

  /** `sorted(scores, key=score, reverse=True)[:top_k]`. */
  function RankedIds(vh: seq<Hit>, bh: seq<Hit>, k: nat, topK: int): (r: seq<string>)
    ensures NoDup(r)
    ensures Descending(r, RrfKey(vh, bh, k))
    ensures forall id :: id in r ==> id in IdsOf(vh) + IdsOf(bh)
    ensures topK >= 0 ==> |r| <= topK
  {
    var all := SortDesc(FusedIds(vh, bh), RrfKey(vh, bh, k));
    SortDescSpec(FusedIds(vh, bh), RrfKey(vh, bh, k));
    NoDupPermutation(FusedIds(vh, bh), all);
    Take(all, topK)
  }

  /** What `reciprocal_rank_fusion` returns. */
  function Rrf(vh: seq<Hit>, bh: seq<Hit>, k: nat, topK: int): seq<Hit> {
    var top := RankedIds(vh, bh, k, topK);
    seq(|top|, i requires 0 <= i < |top| => Pick(vh, bh, top[i]))
  }

  /** At most `top_k` hits with pairwise distinct ids, all taken from the two inputs. */
  lemma RrfShape(vh: seq<Hit>, bh: seq<Hit>, k: nat, topK: int)
    ensures var r := Rrf(vh, bh, k, topK);
      && (topK >= 0 ==> |r| <= topK)
      && |r| <= |vh| + |bh|
      && (forall i, j :: 0 <= i < j < |r| ==> r[i].id != r[j].id)
      && (forall i :: 0 <= i < |r| ==> r[i] in vh || r[i] in bh)
  {
    var top := RankedIds(vh, bh, k, topK);
    var all := SortDesc(FusedIds(vh, bh), RrfKey(vh, bh, k));
    SortDescSpec(FusedIds(vh, bh), RrfKey(vh, bh, k));
    DistinctLength(IdsOf(vh) + IdsOf(bh));
  }

  lemma {:induction false} DistinctLength(s: seq<string>)
    ensures |Distinct(s)| <= |s|
  {
    if s != [] {
      DistinctLength(s[..|s| - 1]);
    }
  }

  /** Best fused score first, and every fused score is positive. */
  lemma RrfOrdered(vh: seq<Hit>, bh: seq<Hit>, k: nat, topK: int)
    ensures var r := Rrf(vh, bh, k, topK);
      && (forall i, j :: 0 <= i < j < |r| ==> RrfScore(vh, bh, k, r[i].id) >= RrfScore(vh, bh, k, r[j].id))
      && (forall i :: 0 <= i < |r| ==> RrfScore(vh, bh, k, r[i].id) > 0.0)
  {
    var top := RankedIds(vh, bh, k, topK);
    var r := Rrf(vh, bh, k, topK);
    forall i, j | 0 <= i < j < |r| ensures RrfScore(vh, bh, k, r[i].id) >= RrfScore(vh, bh, k, r[j].id) {
      assert RrfKey(vh, bh, k)(top[i]) >= RrfKey(vh, bh, k)(top[j]);
    }
    forall i | 0 <= i < |r| ensures RrfScore(vh, bh, k, r[i].id) > 0.0 {
      var id := top[i];
      assert id in IdsOf(vh) + IdsOf(bh);
      RankSumNonNegative(vh, id, k);
      RankSumNonNegative(bh, id, k);
      if id in IdsOf(vh) { RankSumPresent(vh, id, k); } else { RankSumPresent(bh, id, k); }
    }
  }

  /** An id found by both searches is returned with its vector-search record. */
  lemma RrfPrefersVector(vh: seq<Hit>, bh: seq<Hit>, k: nat, topK: int)
    ensures var r := Rrf(vh, bh, k, topK);
      forall i :: 0 <= i < |r| ==>
        (r[i].id in IdsOf(vh) ==> r[i] == LastWith(vh, r[i].id) && r[i] in vh)
        && (r[i].id !in IdsOf(vh) ==> r[i] == FirstWith(bh, r[i].id) && r[i] in bh)
  {
  }

  /** Truncation drops only ids that score no higher than every id kept, and
      with room for all of them no id of either list is dropped. */
  lemma RrfTopK(vh: seq<Hit>, bh: seq<Hit>, k: nat, topK: int, id: string)
    requires id in IdsOf(vh) + IdsOf(bh)
    ensures var r := Rrf(vh, bh, k, topK);
      (forall i :: 0 <= i < |r| ==> r[i].id != id) ==>
        && (forall i :: 0 <= i < |r| ==> RrfScore(vh, bh, k, r[i].id) >= RrfScore(vh, bh, k, id))
        && (topK >= 0 ==> |r| == topK)
        && topK < |FusedIds(vh, bh)| <= |vh| + |bh|
  {
    var fused := FusedIds(vh, bh);
    var all := SortDesc(fused, RrfKey(vh, bh, k));
    SortDescSpec(fused, RrfKey(vh, bh, k));
    DistinctLength(IdsOf(vh) + IdsOf(bh));
    var top := RankedIds(vh, bh, k, topK);
    var r := Rrf(vh, bh, k, topK);
    assert id in fused;
    var p :| 0 <= p < |all| && all[p] == id;
    if forall i :: 0 <= i < |r| ==> r[i].id != id {
      assert forall i :: 0 <= i < |r| ==> r[i].id == top[i] && top[i] == all[i];
      assert p >= |r|;
      assert |top| < |all|;
      forall i | 0 <= i < |r| ensures RrfScore(vh, bh, k, r[i].id) >= RrfScore(vh, bh, k, id) {
        assert RrfKey(vh, bh, k)(all[i]) >= RrfKey(vh, bh, k)(all[p]);
      }
    }
  }

  /** The two dictionaries of `reciprocal_rank_fusion` and the insertion
      order of the keys of `scores`. */
  datatype Fusion = Fusion(scores: map<string, real>, docMap: map<string, Hit>, order: seq<string>)

  /** `scores.get(doc_id, 0)`. */
  function ScoreGet(scores: map<string, real>, id: string): real {
    if id in scores then scores[id] else 0.0
  }

  /** One pass of either scoring loop: add the hit's contribution and store
      its record, overwriting (vector loop) or only when absent (BM25 loop). */
  function Step(f: Fusion, hit: Hit, rank: nat, k: nat, overwrite: bool): Fusion {
    var id := hit.id;
    Fusion(f.scores[id := ScoreGet(f.scores, id) + Contribution(k, rank)],
           if overwrite || id !in f.docMap then f.docMap[id := hit] else f.docMap,
           if id in f.scores then f.order else f.order + [id])
  }

  /** A whole scoring loop over `hits`, starting from `f`. */
  function Pass(f: Fusion, hits: seq<Hit>, k: nat, overwrite: bool): Fusion {
    if hits == [] then f
    else
      var n := |hits| - 1;
      Step(Pass(f, hits[..n], k, overwrite), hits[n], n, k, overwrite)
  }

  const NoFusion := Fusion(map[], map[], [])

  /** A loop adds exactly the ids of its list to `scores`, each with its
      contribution from that list. */
  lemma {:induction false} PassScores(f: Fusion, hits: seq<Hit>, k: nat, overwrite: bool, id: string)
    ensures var r := Pass(f, hits, k, overwrite);
      && (id in r.scores <==> id in f.scores || id in IdsOf(hits))
      && (id in r.scores ==> r.scores[id] == ScoreGet(f.scores, id) + RankSum(hits, id, k))
  {
    if hits != [] {
      var n := |hits| - 1;
      PassScores(f, hits[..n], k, overwrite, id);
      IdsOfSnoc(hits, n);
      var p := Pass(f, hits[..n], k, overwrite);
      if id == hits[n].id && id !in p.scores {
        RankSumAbsent(hits[..n], id, k);
      }
    }
  }

  /** A loop adds exactly the ids of its list to `doc_map`. */
  lemma {:induction false} PassDocKeys(f: Fusion, hits: seq<Hit>, k: nat, overwrite: bool, id: string)
    ensures (id in Pass(f, hits, k, overwrite).docMap <==> id in f.docMap || id in IdsOf(hits))
  {
    if hits != [] {
      var n := |hits| - 1;
      PassDocKeys(f, hits[..n], k, overwrite, id);
      IdsOfSnoc(hits, n);
    }
  }

  /** The vector loop leaves each id with the last of its hits. */
  lemma {:induction false} PassOverwrite(f: Fusion, hits: seq<Hit>, k: nat, id: string)
    ensures var r := Pass(f, hits, k, true);
      && (id in IdsOf(hits) ==> id in r.docMap && r.docMap[id] == LastWith(hits, id))
      && (id !in IdsOf(hits) && id in f.docMap ==> id in r.docMap && r.docMap[id] == f.docMap[id])
  {
    if hits != [] {
      var n := |hits| - 1;
      PassOverwrite(f, hits[..n], k, id);
      IdsOfSnoc(hits, n);
    }
  }

  /** The BM25 loop keeps a record already stored and otherwise the first hit. */
  lemma {:induction false} PassKeepFirst(f: Fusion, hits: seq<Hit>, k: nat, id: string)
    ensures var r := Pass(f, hits, k, false);
      && (id in f.docMap ==> id in r.docMap && r.docMap[id] == f.docMap[id])
      && (id !in f.docMap && id in IdsOf(hits) ==> id in r.docMap && r.docMap[id] == FirstWith(hits, id))
  {
    if hits != [] {
      var n := |hits| - 1;
      PassKeepFirst(f, hits[..n], k, id);
      PassDocKeys(f, hits[..n], k, false, id);
      IdsOfSnoc(hits, n);
    }
  }

  /** The key order stays the insertion order of all ids seen so far. */
  lemma {:induction false} PassOrder(f: Fusion, hits: seq<Hit>, k: nat, overwrite: bool, seen: seq<string>)
    requires f.order == Distinct(seen) && forall id :: id in f.scores <==> id in seen
    ensures Pass(f, hits, k, overwrite).order == Distinct(seen + IdsOf(hits))
  {
    if hits == [] {
      assert seen + IdsOf(hits) == seen;
    } else {
      var n := |hits| - 1;
      var id := hits[n].id;
      var pre := seen + IdsOf(hits[..n]);
      PassOrder(f, hits[..n], k, overwrite, seen);
      PassScores(f, hits[..n], k, overwrite, id);
      IdsAfter(seen, hits);
      DistinctSnoc(pre, id);
    }
  }

  /** Both loops, starting from empty dictionaries. */
  function Fused(vh: seq<Hit>, bh: seq<Hit>, k: nat): Fusion {
    Pass(Pass(NoFusion, vh, k, true), bh, k, false)
  }

  /** After both loops the keys, in insertion order, are the fused ids. */
  lemma FusedOrder(vh: seq<Hit>, bh: seq<Hit>, k: nat)
    ensures Fused(vh, bh, k).order == FusedIds(vh, bh)
  {
    var g := Pass(NoFusion, vh, k, true);
    assert NoFusion.order == Distinct([]);
    PassOrder(NoFusion, vh, k, true, []);
    assert [] + IdsOf(vh) == IdsOf(vh);
    forall id ensures id in g.scores <==> id in IdsOf(vh) {
      PassScores(NoFusion, vh, k, true, id);
    }
    PassOrder(g, bh, k, false, IdsOf(vh));
  }

  /** After both loops each fused id has its fused score and the record `Pick` chooses. */
  lemma FusedEntry(vh: seq<Hit>, bh: seq<Hit>, k: nat, id: string)
    requires id in IdsOf(vh) + IdsOf(bh)
    ensures var f := Fused(vh, bh, k);
      && id in f.scores && f.scores[id] == RrfScore(vh, bh, k, id)
      && id in f.docMap && f.docMap[id] == Pick(vh, bh, id)
  {
    var g := Pass(NoFusion, vh, k, true);
    PassScores(NoFusion, vh, k, true, id);
    PassScores(g, bh, k, false, id);
    PassDocKeys(NoFusion, vh, k, true, id);
    PassOverwrite(NoFusion, vh, k, id);
    PassKeepFirst(g, bh, k, id);
    if id !in IdsOf(vh) {
      RankSumAbsent(vh, id, k);
    }
  }

  /** `lambda x: scores[x]`. */
  function MapScore(scores: map<string, real>): string -> real {
    id => ScoreGet(scores, id)
  }

  /** Sorting the keys of the filled dictionary by their stored scores gives
      the ranking by fused score, and every ranked id has its `Pick` record. */
  lemma FusedRanking(vh: seq<Hit>, bh: seq<Hit>, k: nat, topK: int)
    ensures var f := Fused(vh, bh, k);
      && Take(SortDesc(f.order, MapScore(f.scores)), topK) == RankedIds(vh, bh, k, topK)
      && forall id :: id in RankedIds(vh, bh, k, topK) ==> id in f.docMap && f.docMap[id] == Pick(vh, bh, id)
    ensures var f := Fused(vh, bh, k); var top := RankedIds(vh, bh, k, topK);
      forall i :: 0 <= i < |top| ==> top[i] in f.docMap && f.docMap[top[i]] == Pick(vh, bh, top[i])
  {
    var f := Fused(vh, bh, k);
    FusedOrder(vh, bh, k);
    forall id | id in f.order
      ensures MapScore(f.scores)(id) == RrfKey(vh, bh, k)(id)
      ensures id in f.docMap && f.docMap[id] == Pick(vh, bh, id)
    {
      FusedEntry(vh, bh, k, id);
    }
    SortDescKeyAgree(f.order, MapScore(f.scores), RrfKey(vh, bh, k));
    var all := SortDesc(f.order, RrfKey(vh, bh, k));
    SortDescSpec(f.order, RrfKey(vh, bh, k));
    forall id | id in RankedIds(vh, bh, k, topK) ensures id in f.order {
      assert id in all;
    }
    var top := RankedIds(vh, bh, k, topK);
    forall i | 0 <= i < |top| ensures top[i] in f.docMap && f.docMap[top[i]] == Pick(vh, bh, top[i]) {
      assert top[i] in top;
    }
  }

  /** One scoring loop of `reciprocal_rank_fusion`: each hit adds its
      rank's contribution to its id's score; the vector loop (`overwrite`)
      always stores the hit, the BM25 loop only when its id has no record. */
  method ScoreHits(scores0: map<string, real>, docMap0: map<string, Hit>, order0: seq<string>,
                   hits: seq<Hit>, k: nat, overwrite: bool)
    returns (scores: map<string, real>, docMap: map<string, Hit>, order: seq<string>)
    ensures Fusion(scores, docMap, order) == Pass(Fusion(scores0, docMap0, order0), hits, k, overwrite)
  {
    scores, docMap, order := scores0, docMap0, order0;
    for rank := 0 to |hits|
      invariant Fusion(scores, docMap, order) == Pass(Fusion(scores0, docMap0, order0), hits[..rank], k, overwrite)
    {
      var hit := hits[rank];
      assert hits[..rank + 1][..rank] == hits[..rank];
      ghost var before := Fusion(scores, docMap, order);
      if hit.id !in scores {
        order := order + [hit.id];
      }
      scores := scores[hit.id := (if hit.id in scores then scores[hit.id] else 0.0) + 1.0 / ((k + rank + 1) as real)];
      if overwrite || hit.id !in docMap {
        docMap := docMap[hit.id := hit];
      }
      assert Fusion(scores, docMap, order) == Step(before, hit, rank, k, overwrite);
    }
    assert hits[..|hits|] == hits;
  }

  /** `reciprocal_rank_fusion`: accumulate the scores and the kept records in
      two dictionaries, then sort the ids by score and keep the first `top_k`. */
  method ReciprocalRankFusion(vh: seq<Hit>, bh: seq<Hit>, k: nat, topK: int) returns (merged: seq<Hit>)
    ensures merged == Rrf(vh, bh, k, topK)
  {
    var scores: map<string, real> := map[];
    var docMap: map<string, Hit> := map[];
    var order: seq<string> := [];  // the keys of `scores`, in insertion order
    assert Fusion(scores, docMap, order) == NoFusion;
    scores, docMap, order := ScoreHits(scores, docMap, order, vh, k, true);
    scores, docMap, order := ScoreHits(scores, docMap, order, bh, k, false);
    assert Fusion(scores, docMap, order) == Fused(vh, bh, k);
    FusedRanking(vh, bh, k, topK);
    var top := Take(SortDesc(order, MapScore(scores)), topK);
    assert top == RankedIds(vh, bh, k, topK);
    merged := seq(|top|, i requires 0 <= i < |top| => docMap[top[i]]);
  }

  // ---------------------------------------------------------------- projection

  /** The chunk texts and metadata of the merged hits, index by index. */
  function Project(merged: seq<Hit>): (r: Retrieved)
    ensures |r.chunks| == |merged| && |r.metas| == |merged|
    ensures forall i :: 0 <= i < |merged| ==> r.chunks[i] == merged[i].document && r.metas[i] == merged[i].metadata
  {
    Retrieved(seq(|merged|, i requires 0 <= i < |merged| => merged[i].document),
              seq(|merged|, i requires 0 <= i < |merged| => merged[i].metadata))
  }

  /** `hybrid_retrieve`, given the hits the vector search and the BM25 search
      returned for `top_k * 2`: two lists of equal length, at most `top_k`
      long, whose i-th entries come from the same fused hit. */
  function HybridRetrieve(vh: seq<Hit>, bh: seq<Hit>, topK: int): (r: Retrieved)
    ensures |r.chunks| == |r.metas|
    ensures topK >= 0 ==> |r.chunks| <= topK
    ensures var m := Rrf(vh, bh, RrfK, topK);
      |r.chunks| == |m| && forall i :: 0 <= i < |m| ==> r.chunks[i] == m[i].document && r.metas[i] == m[i].metadata
  {
    var merged := Rrf(vh, bh, RrfK, topK);
    RrfShape(vh, bh, RrfK, topK);
    if merged == [] then Retrieved([], []) else Project(merged)
  }
}
