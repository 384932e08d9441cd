/** The in-browser embedding store behind the support assistant: a list of
    documents kept in memory and mirrored to one browser-storage slot, with
    upsert by id, clear, snapshot, per-type statistics and top-k ranking by
    cosine similarity. */
module VectorStore {
  import opened Wrappers
  import opened Seqs

  datatype Metadata = Metadata(
    url: Option<string>,
    title: Option<string>,
    content: string,
    timestamp: Option<string>,
    docType: Option<string>)

  datatype Document = Document(id: string, embedding: seq<real>, metadata: Metadata)

  datatype SimilarityResult = SimilarityResult(document: Document, similarity: real)

  /** One entry of the `byType` record, in first-seen order. */
  datatype TypeCount = TypeCount(docType: string, count: nat)

  datatype Stats = Stats(totalDocuments: nat, byType: seq<TypeCount>)

  // ---------------------------------------------------------------------
  // Cosine similarity. The loop's sums are modelled exactly; the final
  // `dot / (sqrt(normA) * sqrt(normB))` is the parameter `ratio`.

  function Dot(a: seq<real>, b: seq<real>): real
    requires |a| == |b|
  {
    if a == [] then 0.0
    else Dot(a[..|a| - 1], b[..|b| - 1]) + a[|a| - 1] * b[|b| - 1]
  }

  function NormSq(a: seq<real>): (r: real)
  {
    if a == [] then 0.0
    else NormSq(a[..|a| - 1]) + a[|a| - 1] * a[|a| - 1]
  }

  predicate IsZeroVector(a: seq<real>)
  {
    forall i :: 0 <= i < |a| ==> a[i] == 0.0
  }

  /** An all-zero vector (or an empty one) has norm zero. */
  lemma {:induction false} ZeroVectorHasZeroNorm(a: seq<real>)
    requires IsZeroVector(a)
    ensures NormSq(a) == 0.0
  {
    if a != [] {
      var init := a[..|a| - 1];
      assert IsZeroVector(init) by {
        forall i | 0 <= i < |init| ensures init[i] == 0.0 {
          assert init[i] == a[i];
        }
      }
      ZeroVectorHasZeroNorm(init);
      assert a[|a| - 1] == 0.0;
    }
  }

  /** The source's `cosineSimilarity`, with the square-root step abstracted. */
  function Cosine(a: seq<real>, b: seq<real>, ratio: (real, real, real) -> real): real
  {
    if |a| != |b| then 0.0
    else if NormSq(a) == 0.0 || NormSq(b) == 0.0 then 0.0
    else ratio(Dot(a, b), NormSq(a), NormSq(b))
  }

  /** The two guards: vectors of different lengths, or a zero vector on
      either side, score 0 whatever the ratio step computes. */
  lemma CosineGuards(a: seq<real>, b: seq<real>, ratio: (real, real, real) -> real)
    ensures |a| != |b| ==> Cosine(a, b, ratio) == 0.0
    ensures IsZeroVector(a) || IsZeroVector(b) ==> Cosine(a, b, ratio) == 0.0
  {
    if IsZeroVector(a) {
      ZeroVectorHasZeroNorm(a);
    }
    if IsZeroVector(b) {
      ZeroVectorHasZeroNorm(b);
    }
  }

  /** The loop of `cosineSimilarity`, accumulating the dot product and both norms. */
  method CosineSimilarity(a: seq<real>, b: seq<real>, ratio: (real, real, real) -> real) returns (sim: real)
    ensures sim == Cosine(a, b, ratio)
  {
    if |a| != |b| {
      return 0.0;
    }
    var dot, normA, normB := 0.0, 0.0, 0.0;
    var i := 0;
    while i < |a|
      invariant 0 <= i <= |a|
      invariant dot == Dot(a[..i], b[..i])
      invariant normA == NormSq(a[..i]) && normB == NormSq(b[..i])
    {
      assert a[..i + 1][..i] == a[..i] && b[..i + 1][..i] == b[..i];
      dot := dot + a[i] * b[i];
      normA := normA + a[i] * a[i];
      normB := normB + b[i] * b[i];
      i := i + 1;
    }
    assert a[..i] == a && b[..i] == b;
    if normA == 0.0 || normB == 0.0 {
      return 0.0;
    }
    sim := ratio(dot, normA, normB);
  }

  // ---------------------------------------------------------------------
  // Upsert

  predicate HasId(d: Document, id: string)
  {
    d.id == id
  }

  /** `documents.filter(doc => doc.id !== id)`. */
  function RemoveId(docs: seq<Document>, id: string): (r: seq<Document>)
    ensures forall i :: 0 <= i < |r| ==> r[i].id != id
  {
    Filter(docs, OtherId(id))
  }

  /** `doc => doc.id !== id`. */
  function OtherId(id: string): Document -> bool
  {
    d => !HasId(d, id)
  }

  /** `{...d, metadata: {...d.metadata, timestamp: now}}`. */
  function Stamp(d: Document, now: string): (r: Document)
    ensures r.id == d.id && r.embedding == d.embedding
    ensures r.metadata.timestamp == Some(now)
    ensures r.metadata.(timestamp := d.metadata.timestamp) == d.metadata
  {
    d.(metadata := d.metadata.(timestamp := Some(now)))
  }

  /** The new document list after `add(d)` at time `now`. */
  function Upsert(docs: seq<Document>, d: Document, now: string): seq<Document>
  {
    RemoveId(docs, d.id) + [Stamp(d, now)]
  }

  /** After `add(d)` exactly one document has `d`'s id; it is the stamped `d`
      and it is last; the documents before it are the old ones without that
      id, in their old order. */
  lemma UpsertShape(docs: seq<Document>, d: Document, now: string)
    ensures var r := Upsert(docs, d, now);
      && |r| >= 1 && r[|r| - 1] == Stamp(d, now)
      && (forall i :: 0 <= i < |r| - 1 ==> r[i].id != d.id)
      && r[..|r| - 1] == Filter(docs, OtherId(d.id))
  {
    var r := Upsert(docs, d, now);
    assert r[..|r| - 1] == RemoveId(docs, d.id);
  }

  /** Every document without `d`'s id survives `add(d)`, and nothing else is
      invented: the documents after are the old ones without that id, plus `d`. */
  lemma UpsertKeepsOthers(docs: seq<Document>, d: Document, now: string, x: Document)
    ensures x in Upsert(docs, d, now) <==> (x in docs && x.id != d.id) || x == Stamp(d, now)
  {
    var kept := RemoveId(docs, d.id);
    FilterFacts(docs, OtherId(d.id));
    if x in docs && x.id != d.id {
      var i :| 0 <= i < |docs| && docs[i] == x;
      assert !HasId(docs[i], d.id);
    }
    if x in kept {
      var i :| 0 <= i < |kept| && kept[i] == x;
      assert x in docs && !HasId(x, d.id);
    }
  }

  ghost predicate DistinctIds(docs: seq<Document>)
  {
    forall i, j :: 0 <= i < j < |docs| ==> docs[i].id != docs[j].id
  }

  /** Keeping some of the documents keeps ids distinct. */
  lemma {:induction false} FilterKeepsDistinct(docs: seq<Document>, p: Document -> bool)
    requires DistinctIds(docs)
    ensures DistinctIds(Filter(docs, p))
  {
    if docs != [] {
      var init := docs[..|docs| - 1];
      assert DistinctIds(init) by {
        forall i, j | 0 <= i < j < |init| ensures init[i].id != init[j].id {
          assert init[i] == docs[i] && init[j] == docs[j];
        }
      }
      FilterKeepsDistinct(init, p);
      FilterFacts(init, p);
      var last := docs[|docs| - 1];
      var prefix := Filter(init, p);
      if p(last) {
        forall i | 0 <= i < |prefix| ensures prefix[i].id != last.id {
          assert prefix[i] in init;
          var k :| 0 <= k < |init| && init[k] == prefix[i];
          assert docs[k] == init[k];
        }
      }
    }
  }

  /** Removing the documents with one id keeps ids distinct. */
  lemma RemoveIdKeepsDistinct(docs: seq<Document>, id: string)
    requires DistinctIds(docs)
    ensures DistinctIds(RemoveId(docs, id))
  {
    FilterKeepsDistinct(docs, OtherId(id));
  }

  /** Adding keeps one document per id. */
  lemma UpsertKeepsDistinct(docs: seq<Document>, d: Document, now: string)
    requires DistinctIds(docs)
    ensures DistinctIds(Upsert(docs, d, now))
  {
    RemoveIdKeepsDistinct(docs, d.id);
  }

  /** Removing one id twice is removing it once. */
  lemma {:induction false} RemoveIdIdempotent(docs: seq<Document>, id: string)
    ensures RemoveId(RemoveId(docs, id), id) == RemoveId(docs, id)
  {
    FilterAll(RemoveId(docs, id), OtherId(id));
  }

  /** Adding two documents with the same id leaves the store as adding only
      the second one would. */
  lemma UpsertSameIdTwice(docs: seq<Document>, d1: Document, t1: string, d2: Document, t2: string)
    requires d1.id == d2.id
    ensures Upsert(Upsert(docs, d1, t1), d2, t2) == Upsert(docs, d2, t2)
  {
    var id := d1.id;
    var kept := RemoveId(docs, id);
    var s1 := Stamp(d1, t1);
    assert Filter([s1], OtherId(id)) == [] by {
      assert [s1][..0] == [];
    }
    assert RemoveId(kept + [s1], id) == kept by {
      FilterAppend(kept, [s1], OtherId(id));
      RemoveIdIdempotent(docs, id);
    }
    assert Upsert(Upsert(docs, d1, t1), d2, t2) == kept + [Stamp(d2, t2)];
  }

  /** A run of `add` calls, one per document of `news`, all at time `now`. */
  function UpsertAll(docs: seq<Document>, news: seq<Document>, now: string): seq<Document>
  {
    if news == [] then docs
    else Upsert(UpsertAll(docs, news[..|news| - 1], now), news[|news| - 1], now)
  }

  lemma UpsertAllStep(docs: seq<Document>, news: seq<Document>, d: Document, now: string)
    ensures UpsertAll(docs, news + [d], now) == Upsert(UpsertAll(docs, news, now), d, now)
  {
    assert (news + [d])[..|news|] == news;
  }

  /** After a run of adds, every document is an old one or a stamped new one. */
  lemma {:induction false} UpsertAllOnly(docs: seq<Document>, news: seq<Document>, now: string, x: Document)
    requires x in UpsertAll(docs, news, now)
    ensures x in docs || exists j :: 0 <= j < |news| && x == Stamp(news[j], now)
  {
    if news != [] {
      var init := news[..|news| - 1];
      UpsertKeepsOthers(UpsertAll(docs, init, now), news[|news| - 1], now, x);
      if x != Stamp(news[|news| - 1], now) {
        UpsertAllOnly(docs, init, now, x);
        if !(x in docs) {
          var j :| 0 <= j < |init| && x == Stamp(init[j], now);
          assert news[j] == init[j];
        }
      }
    }
  }

  /** An old document survives a run of adds that never uses its id. */
  lemma {:induction false} UpsertAllKeeps(docs: seq<Document>, news: seq<Document>, now: string, x: Document)
    requires x in docs
    requires forall j :: 0 <= j < |news| ==> news[j].id != x.id
    ensures x in UpsertAll(docs, news, now)
  {
    if news != [] {
      var init := news[..|news| - 1];
      UpsertAllKeeps(docs, init, now, x);
      UpsertKeepsOthers(UpsertAll(docs, init, now), news[|news| - 1], now, x);
    }
  }

  /** A new document whose id is not used again later in the run is in the result. */
  lemma {:induction false} UpsertAllHas(docs: seq<Document>, news: seq<Document>, now: string, i: nat)
    requires i < |news|
    requires forall j :: i < j < |news| ==> news[j].id != news[i].id
    ensures Stamp(news[i], now) in UpsertAll(docs, news, now)
  {
    var init := news[..|news| - 1];
    var n := news[|news| - 1];
    var before := UpsertAll(docs, init, now);
    assert UpsertAll(docs, news, now) == Upsert(before, n, now);
    if i == |news| - 1 {
      UpsertKeepsOthers(before, n, now, Stamp(n, now));
    } else {
      assert init[i] == news[i];
      assert forall j :: i < j < |init| ==> init[j].id != init[i].id by {
        forall j | i < j < |init| ensures init[j].id != init[i].id {
          assert init[j] == news[j];
        }
      }
      UpsertAllHas(docs, init, now, i);
      UpsertKeepsOthers(before, n, now, Stamp(news[i], now));
      assert Stamp(news[i], now).id == news[i].id != n.id;
    }
  }

  // ---------------------------------------------------------------------
  // Ranking

  /** The score `similaritySearch` gives a stored document for one query. */
  function SimScore(query: seq<real>, ratio: (real, real, real) -> real): Document -> real
  {
    (d: Document) => Cosine(query, d.embedding, ratio)
  }

  /** The `results` array the search loop builds, one entry per stored document. */
  function Scored(docs: seq<Document>, score: Document -> real): (r: seq<SimilarityResult>)
    ensures |r| == |docs|
    ensures forall i :: 0 <= i < |r| ==> r[i] == SimilarityResult(docs[i], score(docs[i]))
  {
    if docs == [] then []
    else Scored(docs[..|docs| - 1], score) + [SimilarityResult(docs[|docs| - 1], score(docs[|docs| - 1]))]
  }

  /** The comparator `(a, b) => b.similarity - a.similarity`: highest first. */
  predicate BySimilarity(a: SimilarityResult, b: SimilarityResult)
  {
    a.similarity >= b.similarity
  }

  lemma BySimilarityIsTotalPreorder()
    ensures TotalPreorder(BySimilarity)
  {
  }

  function DocOf(r: SimilarityResult): Document
  {
    r.document
  }

  /** `similaritySearch(query, topK)`: the scored documents, highest first, cut
      with `slice(0, topK)`. */
  function Search(docs: seq<Document>, score: Document -> real, topK: int): seq<SimilarityResult>
  {
    BySimilarityIsTotalPreorder();
    JsSlicePrefix(SortBy(Scored(docs, score), BySimilarity), topK)
  }

  const DefaultTopK := 3

  /** Ranking contract: `min(topK, n)` results for a non-negative `topK`, in
      non-increasing similarity, each carrying its own document's score. */
  lemma SearchRanking(docs: seq<Document>, score: Document -> real, topK: int)
    ensures var r := Search(docs, score, topK);
      && (topK >= 0 ==> |r| == Min(topK, |docs|))
      && (forall i, j :: 0 <= i < j < |r| ==> r[i].similarity >= r[j].similarity)
      && (forall i :: 0 <= i < |r| ==> r[i].similarity == score(r[i].document))
      && multiset(r) <= multiset(Scored(docs, score))
      && (topK >= |docs| ==> multiset(r) == multiset(Scored(docs, score)))
  {
    BySimilarityIsTotalPreorder();
    var scored := Scored(docs, score);
    var sorted := SortBy(scored, BySimilarity);
    var r := Search(docs, score, topK);
    assert r == sorted[..|r|];
    assert sorted == r + sorted[|r|..];
    assert multiset(sorted) == multiset(r) + multiset(sorted[|r|..]);
    forall i | 0 <= i < |r| ensures r[i].similarity == score(r[i].document) {
      assert r[i] in multiset(scored);
    }
    if topK >= |docs| {
      assert r == sorted;
    }
  }

  /** Each stored document is returned at most as often as it is stored, and
      with `topK >= n` every stored document is returned exactly once. */
  lemma SearchReturnsStoredDocuments(docs: seq<Document>, score: Document -> real, topK: int)
    ensures var r := Search(docs, score, topK);
      && multiset(Map(r, DocOf)) <= multiset(docs)
      && (topK >= |docs| ==> multiset(Map(r, DocOf)) == multiset(docs))
  {
    var scored := Scored(docs, score);
    var r := Search(docs, score, topK);
    SearchRanking(docs, score, topK);
    assert Map(scored, DocOf) == docs;
    MapSubMultiset(r, scored, DocOf);
    if topK >= |docs| {
      MapSubMultiset(scored, r, DocOf);
    }
  }

  // ---------------------------------------------------------------------
  // Statistics

  /** `doc.metadata.type || 'unknown'`: an absent or empty type is "unknown". */
  function TypeKey(d: Document): string
  {
    if d.metadata.docType.None? || d.metadata.docType.value == "" then "unknown"
    else d.metadata.docType.value
  }

  /** `byType[key] = (byType[key] || 0) + 1`. */
  function Bump(byType: seq<TypeCount>, key: string): (r: seq<TypeCount>)
    ensures |r| == |byType| || |r| == |byType| + 1
  {
    if byType == [] then [TypeCount(key, 1)]
    else if byType[0].docType == key then [TypeCount(key, byType[0].count + 1)] + byType[1..]
    else [byType[0]] + Bump(byType[1..], key)
  }

  /** The `byType` record the statistics loop builds. */
  function Tally(docs: seq<Document>): seq<TypeCount>
  {
    if docs == [] then [] else Bump(Tally(docs[..|docs| - 1]), TypeKey(docs[|docs| - 1]))
  }

  function StatsOf(docs: seq<Document>): Stats
  {
    Stats(|docs|, Tally(docs))
  }

  function Total(byType: seq<TypeCount>): nat
  {
    if byType == [] then 0 else byType[0].count + Total(byType[1..])
  }

  /** The count recorded for `key` (0 when it has no entry). */
  function CountOf(byType: seq<TypeCount>, key: string): nat
  {
    if byType == [] then 0
    else if byType[0].docType == key then byType[0].count
    else CountOf(byType[1..], key)
  }

  ghost predicate DistinctTypes(byType: seq<TypeCount>)
  {
    forall i, j :: 0 <= i < j < |byType| ==> byType[i].docType != byType[j].docType
  }

  function NumOfType(docs: seq<Document>, key: string): nat
  {
    |Filter(docs, d => TypeKey(d) == key)|
  }

  lemma BumpFacts(byType: seq<TypeCount>, key: string)
    requires DistinctTypes(byType)
    ensures DistinctTypes(Bump(byType, key))
    ensures Total(Bump(byType, key)) == Total(byType) + 1
    ensures forall k :: CountOf(Bump(byType, key), k) == CountOf(byType, k) + (if k == key then 1 else 0)
    ensures (forall i :: 0 <= i < |byType| ==> byType[i].count > 0) ==>
      forall i :: 0 <= i < |Bump(byType, key)| ==> Bump(byType, key)[i].count > 0
  {
    BumpDistinct(byType, key);
    BumpTotal(byType, key);
    forall k ensures CountOf(Bump(byType, key), k) == CountOf(byType, k) + (if k == key then 1 else 0) {
      BumpCount(byType, key, k);
    }
    BumpPositive(byType, key);
  }

  lemma {:induction false} BumpDistinct(byType: seq<TypeCount>, key: string)
    requires DistinctTypes(byType)
    ensures DistinctTypes(Bump(byType, key))
  {
    if byType != [] && byType[0].docType != key {
      var tail := byType[1..];
      assert DistinctTypes(tail) by {
        forall i, j | 0 <= i < j < |tail| ensures tail[i].docType != tail[j].docType {
          assert tail[i] == byType[i + 1] && tail[j] == byType[j + 1];
        }
      }
      BumpDistinct(tail, key);
      var b := Bump(tail, key);
      var r := [byType[0]] + b;
      assert Bump(byType, key) == r;
      forall i, j | 0 <= i < j < |r| ensures r[i].docType != r[j].docType {
        if i == 0 {
          BumpTypes(tail, key, j - 1);
          if b[j - 1].docType != key {
            var m :| 0 <= m < |tail| && tail[m].docType == b[j - 1].docType;
            assert tail[m] == byType[m + 1];
          }
        } else {
          assert r[i] == b[i - 1] && r[j] == b[j - 1];
        }
      }
    } else if byType != [] {
      var r := Bump(byType, key);
      forall i, j | 0 <= i < j < |r| ensures r[i].docType != r[j].docType {
        assert r[i].docType == byType[i].docType && r[j].docType == byType[j].docType;
      }
    }
  }

  lemma {:induction false} BumpTotal(byType: seq<TypeCount>, key: string)
    ensures Total(Bump(byType, key)) == Total(byType) + 1
  {
    if byType != [] && byType[0].docType != key {
      BumpTotal(byType[1..], key);
      assert Bump(byType, key)[1..] == Bump(byType[1..], key);
    } else if byType != [] {
      assert Bump(byType, key)[1..] == byType[1..];
    }
  }

  lemma {:induction false} BumpCount(byType: seq<TypeCount>, key: string, k: string)
    ensures CountOf(Bump(byType, key), k) == CountOf(byType, k) + (if k == key then 1 else 0)
  {
    if byType != [] && byType[0].docType != key {
      BumpCount(byType[1..], key, k);
      assert Bump(byType, key)[1..] == Bump(byType[1..], key);
    } else if byType != [] {
      assert Bump(byType, key)[1..] == byType[1..];
    }
  }

  lemma {:induction false} BumpPositive(byType: seq<TypeCount>, key: string)
    ensures (forall i :: 0 <= i < |byType| ==> byType[i].count > 0) ==>
      forall i :: 0 <= i < |Bump(byType, key)| ==> Bump(byType, key)[i].count > 0
  {
    if byType != [] && (forall i :: 0 <= i < |byType| ==> byType[i].count > 0) {
      var r := Bump(byType, key);
      if byType[0].docType != key {
        var tail := byType[1..];
        assert forall i :: 0 <= i < |tail| ==> tail[i] == byType[i + 1];
        BumpPositive(tail, key);
        forall i | 0 <= i < |r| ensures r[i].count > 0 {
          if i > 0 {
            assert r[i] == Bump(tail, key)[i - 1];
          }
        }
      } else {
        forall i | 0 <= i < |r| ensures r[i].count > 0 {
          if i > 0 {
            assert r[i] == byType[i];
          }
        }
      }
    }
  }

  lemma {:induction false} BumpTypes(byType: seq<TypeCount>, key: string, i: nat)
    requires i < |Bump(byType, key)|
    ensures Bump(byType, key)[i].docType == key
      || exists j :: 0 <= j < |byType| && byType[j].docType == Bump(byType, key)[i].docType
  {
    if byType != [] && byType[0].docType != key && i > 0 {
      BumpTypes(byType[1..], key, i - 1);
      var b := Bump(byType[1..], key);
      if b[i - 1].docType != key {
        var j :| 0 <= j < |byType[1..]| && byType[1..][j].docType == b[i - 1].docType;
        assert byType[j + 1].docType == b[i - 1].docType;
      }
    } else if byType != [] && byType[0].docType == key && i > 0 {
      assert Bump(byType, key)[i] == byType[i];
    }
  }

  /** Statistics contract: the `byType` counts add up to `totalDocuments`,
      which is the number of stored documents; each type occurs once, and
      its count is the number of documents of that type, untyped ones being
      counted under "unknown"; no type is listed with a zero count. */
  lemma {:induction false} TallyContract(docs: seq<Document>)
    ensures var s := StatsOf(docs);
      && s.totalDocuments == |docs|
      && Total(s.byType) == |docs|
      && DistinctTypes(s.byType)
      && (forall k :: CountOf(s.byType, k) == NumOfType(docs, k))
      && (forall i :: 0 <= i < |s.byType| ==> s.byType[i].count > 0)
  {
    if docs != [] {
      var init := docs[..|docs| - 1];
      TallyContract(init);
      var prev := Tally(init);
      BumpFacts(prev, TypeKey(docs[|docs| - 1]));
      assert docs == init + [docs[|docs| - 1]];
      forall k ensures CountOf(Tally(docs), k) == NumOfType(docs, k) {
        FilterAppend(init, [docs[|docs| - 1]], d => TypeKey(d) == k);
        assert [docs[|docs| - 1]][..0] == [];
      }
    }
  }

  /** The store's initial contents: a missing slot, or one that fails to
      parse, gives an empty store. */
  function Loaded(stored: Slot<seq<Document>>): (docs: seq<Document>)
    ensures stored.Stored? ==> docs == stored.value
    ensures !stored.Stored? ==> docs == []
  {
    if stored.Stored? then stored.value else []
  }

  /** The `VectorStore` class. `storage` is the browser-storage slot the
      store mirrors itself into; `writable` says whether writing to it
      succeeds (a failed write is logged and otherwise ignored). */
  class Store {
    var documents: seq<Document>
    var storage: Slot<seq<Document>>
    const writable: bool

    constructor (stored: Slot<seq<Document>>, writable: bool)
      ensures documents == Loaded(stored)
      ensures storage == stored
      ensures this.writable == writable
    {
      documents := Loaded(stored);
      storage := stored;
      this.writable := writable;
    }

    /** `saveToStorage`. */
    method Save()
      modifies this
      ensures documents == old(documents)
      ensures storage == if writable then Stored(documents) else old(storage)
    {
      if writable {
        storage := Stored(documents);
      }
    }

    /** `add(document)`: upsert by id, stamped with `now`, then saved. */
    method Add(d: Document, now: string)
      modifies this
      ensures documents == Upsert(old(documents), d, now)
      ensures storage == if writable then Stored(documents) else old(storage)
      ensures DistinctIds(old(documents)) ==> DistinctIds(documents)
    {
      var kept: seq<Document> := [];
      var i := 0;
      while i < |documents|
        invariant 0 <= i <= |documents|
        invariant kept == Filter(documents[..i], OtherId(d.id))
      {
        assert documents[..i + 1][..i] == documents[..i];
        if documents[i].id != d.id {
          kept := kept + [documents[i]];
        }
        i := i + 1;
      }
      assert documents[..i] == documents;
      if DistinctIds(documents) {
        UpsertKeepsDistinct(documents, d, now);
      }
      documents := kept + [Stamp(d, now)];
      Save();
    }

    /** `similaritySearch(query, topK)`; the source's default `topK` is `DefaultTopK`. */
    method SimilaritySearch(query: seq<real>, topK: int, ratio: (real, real, real) -> real)
      returns (results: seq<SimilarityResult>)
      ensures results == Search(documents, SimScore(query, ratio), topK)
    {
      var scored: seq<SimilarityResult> := [];
      var i := 0;
      while i < |documents|
        invariant 0 <= i <= |documents|
        invariant scored == Scored(documents[..i], SimScore(query, ratio))
      {
        assert documents[..i + 1][..i] == documents[..i];
        var sim := CosineSimilarity(query, documents[i].embedding, ratio);
        scored := scored + [SimilarityResult(documents[i], sim)];
        i := i + 1;
      }
      assert documents[..i] == documents;
      BySimilarityIsTotalPreorder();
      results := JsSlicePrefix(SortBy(scored, BySimilarity), topK);
    }

    /** `getAllDocuments`: a snapshot; a sequence is a value, so later changes
        to the snapshot and to the store do not reach each other. */
    method GetAllDocuments() returns (docs: seq<Document>)
      ensures docs == documents
    {
      docs := documents;
    }

    /** `clear`: the store is emptied and saved. */
    method Clear()
      modifies this
      ensures documents == []
      ensures storage == if writable then Stored([]) else old(storage)
      ensures StatsOf(documents) == Stats(0, [])
    {
      documents := [];
      Save();
    }

    /** `getStats`: one pass over the documents counting each type. */
    method GetStats() returns (stats: Stats)
      ensures stats == StatsOf(documents)
    {
      var byType: seq<TypeCount> := [];
      var i := 0;
      while i < |documents|
        invariant 0 <= i <= |documents|
        invariant byType == Tally(documents[..i])
      {
        assert documents[..i + 1][..i] == documents[..i];
        byType := Bump(byType, TypeKey(documents[i]));
        i := i + 1;
      }
      assert documents[..i] == documents;
      stats := Stats(|documents|, byType);
    }
  }
}
