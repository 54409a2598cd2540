/**
 * Embedding generation of the ingestion pipeline: chunks are embedded 16 at a
 * time; within a batch the calls run concurrently and `Promise.all` gives the
 * results back in input order; a failed call rejects the whole run.
 */
module Embeddings {
  import opened Wrappers
  import opened Text

  /** An embedding vector; the model produces 384 components. */
  type Vector = seq<real>

  /** One record of the embeddings file: the chunk text and its vector. */
  datatype EmbeddedChunk = EmbeddedChunk(text: string, embedding: Vector)

  const EmbeddingBatchSize: nat := 16

  /**
   * The embedding model: whether loading it succeeds, and what it returns for a
   * text (None when the call rejects).
   */
  datatype Embedder = Embedder(loads: bool, embed: string -> Option<Vector>)

  /** The text fields of the records, `embeddings.map(item => item.text)`. */
  function Texts(records: seq<EmbeddedChunk>): (texts: seq<string>)
    ensures |texts| == |records|
    ensures forall i :: 0 <= i < |records| ==> texts[i] == records[i].text
  {
    seq(|records|, i requires 0 <= i < |records| => records[i].text)
  }

  /** The model could embed every chunk. */
  predicate EmbedsAll(embedder: Embedder, chunks: seq<string>)
  {
    && embedder.loads
    && forall i :: 0 <= i < |chunks| ==> embedder.embed(chunks[i]).Some?
  }

  /**
   * `generateEmbeddings(chunks)`. It succeeds exactly when the model loads and
   * every chunk embeds; then record `i` holds chunk `i` and its vector, whatever
   * batch it was computed in. `batches` are the slices the loop handed to the
   * model: all of 16 chunks but the last, together the chunks in order.
   */
  method GenerateEmbeddings(chunks: seq<string>, embedder: Embedder)
    returns (r: Option<seq<EmbeddedChunk>>, ghost batches: seq<seq<string>>)
    ensures r.Some? <==> EmbedsAll(embedder, chunks)
    ensures r.Some? ==> |r.value| == |chunks|
    ensures r.Some? ==> forall i :: 0 <= i < |chunks| ==>
              r.value[i] == EmbeddedChunk(chunks[i], embedder.embed(chunks[i]).value)
    ensures r.Some? ==> Batched(batches, chunks)
  {
    batches := [];
    if !embedder.loads {
      return None, batches;
    }
    var embeddings: seq<EmbeddedChunk> := [];
    var i := 0;
    while i < |chunks|
      invariant i == EmbeddingBatchSize * |batches|
      invariant |embeddings| == if i < |chunks| then i else |chunks|
      invariant EmbeddedSoFar(chunks, embedder, embeddings, batches)
      invariant |batches| > 0 ==> |batches[|batches| - 1]| == EmbeddingBatchSize || i >= |chunks|
      decreases |chunks| - i
    {
      var end := if i + EmbeddingBatchSize < |chunks| then i + EmbeddingBatchSize else |chunks|;
      var batchChunks := chunks[i..end];
      var batchResults := EmbedBatch(batchChunks, embedder);
      if batchResults.None? {
        var j :| 0 <= j < |batchChunks| && embedder.embed(batchChunks[j]).None?;
        assert chunks[i + j] == batchChunks[j];
        return None, batches;
      }
      assert |embeddings| == i;
      assert forall j :: 0 <= j < |batchChunks| ==> batchChunks[j] == chunks[i + j];
      BatchStep(chunks, embedder, embeddings, batches, end, batchResults.value);
      embeddings := embeddings + batchResults.value;
      batches := batches + [batchChunks];
      i := i + EmbeddingBatchSize;
    }
    assert chunks[..|chunks|] == chunks;
    r := Some(embeddings);
  }

  /**
   * One batch, `Promise.all(batch.map(embed))`: every chunk with its vector, in
   * input order, or None as soon as one call rejects.
   */
  method EmbedBatch(batch: seq<string>, embedder: Embedder) returns (r: Option<seq<EmbeddedChunk>>)
    ensures r.None? <==> exists j :: 0 <= j < |batch| && embedder.embed(batch[j]).None?
    ensures r.Some? ==> |r.value| == |batch|
    ensures r.Some? ==> forall j :: 0 <= j < |batch| ==>
              embedder.embed(batch[j]).Some? && r.value[j] == EmbeddedChunk(batch[j], embedder.embed(batch[j]).value)
  {
    if exists j | 0 <= j < |batch| :: embedder.embed(batch[j]).None? {
      return None;
    }
    return Some(seq(|batch|, j requires 0 <= j < |batch| => EmbeddedChunk(batch[j], embedder.embed(batch[j]).value)));
  }

  /**
   * The loop's state: the first `|embeddings|` chunks embed and are recorded in
   * order, and the batches so far are those chunks, cut into slices of 16 but
   * the last.
   */
  ghost predicate EmbeddedSoFar(chunks: seq<string>, embedder: Embedder, embeddings: seq<EmbeddedChunk>,
                                batches: seq<seq<string>>)
  {
    && |embeddings| <= |chunks|
    && (forall k :: 0 <= k < |embeddings| ==> embedder.embed(chunks[k]).Some?)
    && (forall k :: 0 <= k < |embeddings| ==>
          embeddings[k] == EmbeddedChunk(chunks[k], embedder.embed(chunks[k]).value))
    && Batched(batches, chunks[..|embeddings|])
  }

  /** `batches` cut `chunks` in order into slices of 16, the last possibly shorter. */
  ghost predicate Batched(batches: seq<seq<string>>, chunks: seq<string>)
  {
    && Flatten(batches) == chunks
    && (forall k :: 0 <= k < |batches| ==> 0 < |batches[k]| <= EmbeddingBatchSize)
    && (forall k :: 0 <= k < |batches| - 1 ==> |batches[k]| == EmbeddingBatchSize)
  }

  /** One batch that embeds in full extends the state by its slice. */
  lemma BatchStep(chunks: seq<string>, embedder: Embedder, embeddings: seq<EmbeddedChunk>, batches: seq<seq<string>>,
                  end: int, results: seq<EmbeddedChunk>)
    requires EmbeddedSoFar(chunks, embedder, embeddings, batches)
    requires |embeddings| < end <= |chunks| && end - |embeddings| <= EmbeddingBatchSize
    requires |batches| > 0 ==> |batches[|batches| - 1]| == EmbeddingBatchSize
    requires |results| == end - |embeddings|
    requires forall j :: 0 <= j < |results| ==>
               var c := chunks[|embeddings| + j];
               embedder.embed(c).Some? && results[j] == EmbeddedChunk(c, embedder.embed(c).value)
    ensures EmbeddedSoFar(chunks, embedder, embeddings + results, batches + [chunks[|embeddings|..end]])
  {
    var i := |embeddings|;
    var batch := chunks[i..end];
    var next := embeddings + results;
    var nextBatches := batches + [batch];
    FlattenAppend(batches, batch);
    assert chunks[..end] == chunks[..i] + batch;
    assert Flatten(nextBatches) == chunks[..|next|];
    forall k | 0 <= k < |next|
      ensures embedder.embed(chunks[k]).Some? && next[k] == EmbeddedChunk(chunks[k], embedder.embed(chunks[k]).value)
    {
      if k < i {
        assert next[k] == embeddings[k];
      } else {
        assert next[k] == results[k - i];
      }
    }
    forall k | 0 <= k < |nextBatches|
      ensures 0 < |nextBatches[k]| <= EmbeddingBatchSize
    {
      if k < |batches| {
        assert nextBatches[k] == batches[k];
      }
    }
    forall k | 0 <= k < |nextBatches| - 1
      ensures |nextBatches[k]| == EmbeddingBatchSize
    {
      assert nextBatches[k] == batches[k];
    }
  }
}
