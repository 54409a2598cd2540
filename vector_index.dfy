/**
 * Building the vector index from precomputed embeddings: a text-to-vector map
 * replaces the embedding model (unknown texts get a zero vector), and documents
 * go into the store 50 at a time, the first slice creating it and every later
 * slice being added to it.
 */
module VectorIndex {
  import opened Text
  import opened Embeddings

  /** The vector length of the model. */
  const Dimension: nat := 384

  const IndexBatchSize: nat := 50

  /** The metadata source every document carries. */
  const SourceName: string := "health_data.pdf"

  datatype Document = Document(pageContent: string, source: string)

  /** One stored item of the index: the document and the vector it is found by. */
  datatype IndexEntry = IndexEntry(document: Document, vector: Vector)

  /** An insertion into the store, as the ingestion loop issued it. */
  datatype IndexBatch = Created(docs: seq<Document>) | Added(docs: seq<Document>)

  function ZeroVector(): (v: Vector)
    ensures |v| == Dimension && forall i :: 0 <= i < |v| ==> v[i] == 0.0
  {
    seq(Dimension, _ => 0.0)
  }

  /**
   * The map filled by `embeddingMap.set(chunkTexts[i], embeddings[i].embedding)`
   * for i = 0, 1, ...: a later set for the same text overwrites an earlier one.
   */
  function PrecomputedMap(embeddings: seq<EmbeddedChunk>, texts: seq<string>): map<string, Vector>
    requires |texts| <= |embeddings|
  {
    if |texts| == 0 then map[]
    else PrecomputedMap(embeddings, texts[..|texts| - 1])[texts[|texts| - 1] := embeddings[|texts| - 1].embedding]
  }

  /** The overriding `embedDocuments` on one text: the precomputed vector, or zeros. */
  function EmbedDocument(m: map<string, Vector>, text: string): Vector
  {
    if text in m then m[text] else ZeroVector()
  }

  /** The overriding `embedDocuments`: one vector per text, in order. */
  function EmbedDocuments(m: map<string, Vector>, texts: seq<string>): (vs: seq<Vector>)
    ensures |vs| == |texts|
    ensures forall i :: 0 <= i < |texts| ==> vs[i] == EmbedDocument(m, texts[i])
  {
    Map((t: string) => EmbedDocument(m, t), texts)
  }

  /** The entries a store holds for `docs` after embedding them with `m`. */
  function Entries(docs: seq<Document>, m: map<string, Vector>): (es: seq<IndexEntry>)
    ensures |es| == |docs|
    ensures forall i :: 0 <= i < |docs| ==> es[i] == IndexEntry(docs[i], EmbedDocument(m, docs[i].pageContent))
  {
    seq(|docs|, i requires 0 <= i < |docs| => IndexEntry(docs[i], EmbedDocument(m, docs[i].pageContent)))
  }

  /** `chunkTexts.map(chunk => ({pageContent: chunk, metadata: {source}}))`. */
  function Documents(texts: seq<string>): (docs: seq<Document>)
    ensures |docs| == |texts|
    ensures forall i :: 0 <= i < |texts| ==> docs[i] == Document(texts[i], SourceName)
  {
    seq(|texts|, i requires 0 <= i < |texts| => Document(texts[i], SourceName))
  }

  /** The documents of the insertions, in the order they were inserted. */
  function BatchDocs(bs: seq<IndexBatch>): seq<Document>
  {
    if |bs| == 0 then [] else BatchDocs(bs[..|bs| - 1]) + bs[|bs| - 1].docs
  }

  /**
   * How the documents went in: one creating insertion followed only by additions,
   * every insertion but the last of exactly 50 documents, the last of 1 to 50,
   * and together the documents in order.
   */
  ghost predicate InsertedInBatches(bs: seq<IndexBatch>, docs: seq<Document>)
  {
    && |bs| >= 1
    && bs[0].Created?
    && (forall k :: 1 <= k < |bs| ==> bs[k].Added?)
    && (forall k :: 0 <= k < |bs| - 1 ==> |bs[k].docs| == IndexBatchSize)
    && 0 < |bs[|bs| - 1].docs| <= IndexBatchSize
    && BatchDocs(bs) == docs
  }

  /** Every chunk text has a precomputed vector. */
  lemma {:induction false} PrecomputedKeys(embeddings: seq<EmbeddedChunk>, texts: seq<string>)
    requires |texts| <= |embeddings|
    ensures PrecomputedMap(embeddings, texts).Keys == set i | 0 <= i < |texts| :: texts[i]
  {
    if |texts| > 0 {
      var init := texts[..|texts| - 1];
      PrecomputedKeys(embeddings, init);
      assert forall i :: 0 <= i < |init| ==> init[i] == texts[i];
    }
  }

  /** For a text that occurs several times, the vector of its last occurrence wins. */
  lemma {:induction false} LastOccurrenceWins(embeddings: seq<EmbeddedChunk>, texts: seq<string>, j: nat)
    requires |texts| <= |embeddings|
    requires j < |texts|
    requires forall l :: j < l < |texts| ==> texts[l] != texts[j]
    ensures texts[j] in PrecomputedMap(embeddings, texts)
    ensures PrecomputedMap(embeddings, texts)[texts[j]] == embeddings[j].embedding
  {
    if j < |texts| - 1 {
      LastOccurrenceWins(embeddings, texts[..|texts| - 1], j);
    }
  }

  /**
   * While the index is built, the zero-vector fallback is never taken: each
   * document gets the precomputed vector of the last chunk with its text, and
   * with distinct chunk texts, document `i` gets embedding `i`.
   */
  lemma IndexUsesPrecomputedVectors(embeddings: seq<EmbeddedChunk>, texts: seq<string>, i: nat)
    requires |texts| <= |embeddings| && i < |texts|
    ensures texts[i] in PrecomputedMap(embeddings, texts)
    ensures (forall l :: i < l < |texts| ==> texts[l] != texts[i]) ==>
              Entries(Documents(texts), PrecomputedMap(embeddings, texts))[i].vector == embeddings[i].embedding
  {
    PrecomputedKeys(embeddings, texts);
    if forall l :: i < l < |texts| ==> texts[l] != texts[i] {
      LastOccurrenceWins(embeddings, texts, i);
    }
  }

  /** The in-memory FAISS store: what it holds, and (as a record of the run) how it was filled. */
  class FaissStore {
    /** The embedding model the store was created with; later additions use it too. */
    const model: map<string, Vector>
    var entries: seq<IndexEntry>
    ghost var batches: seq<IndexBatch>

    /** `FaissStore.fromDocuments(docs, embeddingsModel)`. */
    constructor FromDocuments(docs: seq<Document>, model: map<string, Vector>)
      ensures this.model == model
      ensures entries == Entries(docs, model)
      ensures batches == [Created(docs)]
    {
      this.model := model;
      entries := Entries(docs, model);
      batches := [Created(docs)];
    }

    /** `vectorStore.addDocuments(docs)`: the new entries go after the existing ones. */
    method AddDocuments(docs: seq<Document>)
      modifies this
      ensures entries == old(entries) + Entries(docs, model)
      ensures batches == old(batches) + [Added(docs)]
    {
      entries := entries + Entries(docs, model);
      batches := batches + [Added(docs)];
    }
  }

  /** The loop of `createFaissIndex` that fills `embeddingMap`. */
  method BuildEmbeddingMap(embeddings: seq<EmbeddedChunk>, chunkTexts: seq<string>) returns (m: map<string, Vector>)
    requires |chunkTexts| <= |embeddings|
    ensures m == PrecomputedMap(embeddings, chunkTexts)
    ensures forall i :: 0 <= i < |chunkTexts| ==> chunkTexts[i] in m
  {
    m := map[];
    for i := 0 to |chunkTexts|
      invariant m == PrecomputedMap(embeddings, chunkTexts[..i])
    {
      assert chunkTexts[..i + 1][..i] == chunkTexts[..i];
      m := m[chunkTexts[i] := embeddings[i].embedding];
    }
    assert chunkTexts[..|chunkTexts|] == chunkTexts;
    PrecomputedKeys(embeddings, chunkTexts);
  }

  /**
   * `createFaissIndex(embeddings, chunkTexts)`: null for no chunks; otherwise a
   * fresh store holding one entry per chunk, in chunk order, each with the
   * precomputed vector, inserted in slices of 50.
   */
  method CreateFaissIndex(embeddings: seq<EmbeddedChunk>, chunkTexts: seq<string>) returns (store: FaissStore?)
    requires |chunkTexts| <= |embeddings|
    ensures store == null <==> |chunkTexts| == 0
    ensures store != null ==> fresh(store)
    ensures store != null ==> store.model == PrecomputedMap(embeddings, chunkTexts)
    ensures store != null ==> store.entries == Entries(Documents(chunkTexts), store.model)
    ensures store != null ==> InsertedInBatches(store.batches, Documents(chunkTexts))
  {
    var documents := Documents(chunkTexts);
    var embeddingMap := BuildEmbeddingMap(embeddings, chunkTexts);
    store := null;
    var i := 0;
    while i < |documents|
      invariant i < |documents| + IndexBatchSize
      invariant store == null <==> i == 0
      invariant store != null ==> fresh(store) && store.model == embeddingMap
      invariant store != null ==> Filled(store.entries, store.batches, documents, i, embeddingMap)
      decreases |documents| - i
    {
      var end := if i + IndexBatchSize < |documents| then i + IndexBatchSize else |documents|;
      var batchDocuments := documents[i..end];
      if store == null {
        store := new FaissStore.FromDocuments(batchDocuments, embeddingMap);
        FirstBatch(store.entries, store.batches, documents, embeddingMap);
      } else {
        NextBatch(store.entries, store.batches, documents, i, embeddingMap);
        store.AddDocuments(batchDocuments);
      }
      i := i + IndexBatchSize;
    }
    if store != null {
      assert documents[..|documents|] == documents;
    }
  }

  /** Min of the loop position and the number of documents: how many are in the store. */
  function Done(i: int, n: int): int
  {
    if i < n then i else n
  }

  /**
   * The store after the loop passed position `i`: it holds the first Done(i)
   * documents, inserted in full slices except possibly the one just made.
   */
  ghost predicate Filled(entries: seq<IndexEntry>, bs: seq<IndexBatch>, docs: seq<Document>, i: int,
                         m: map<string, Vector>)
  {
    && 0 < i
    && entries == Entries(docs[..Done(i, |docs|)], m)
    && |bs| >= 1
    && bs[0].Created?
    && (forall k :: 1 <= k < |bs| ==> bs[k].Added?)
    && (forall k :: 0 <= k < |bs| - 1 ==> |bs[k].docs| == IndexBatchSize)
    && |bs[|bs| - 1].docs| == Done(i, |docs|) - (i - IndexBatchSize) > 0
    && BatchDocs(bs) == docs[..Done(i, |docs|)]
  }

  lemma FirstBatch(entries: seq<IndexEntry>, bs: seq<IndexBatch>, docs: seq<Document>, m: map<string, Vector>)
    requires |docs| > 0
    requires entries == Entries(docs[0..Done(IndexBatchSize, |docs|)], m)
    requires bs == [Created(docs[0..Done(IndexBatchSize, |docs|)])]
    ensures Filled(entries, bs, docs, IndexBatchSize, m)
  {
    assert bs[..0] == [];
  }

  lemma NextBatch(entries: seq<IndexEntry>, bs: seq<IndexBatch>, docs: seq<Document>, i: int,
                  m: map<string, Vector>)
    requires Filled(entries, bs, docs, i, m) && i < |docs|
    ensures var slice := docs[i..Done(i + IndexBatchSize, |docs|)];
            Filled(entries + Entries(slice, m), bs + [Added(slice)], docs, i + IndexBatchSize, m)
  {
    var end := Done(i + IndexBatchSize, |docs|);
    var slice := docs[i..end];
    assert docs[..end] == docs[..i] + slice;
    assert (bs + [Added(slice)])[..|bs|] == bs;
    assert Entries(docs[..end], m) == Entries(docs[..i], m) + Entries(slice, m);
  }
}
