/**
 * The offline ingestion run: extract the document's text, chunk it, embed the
 * chunks, write the embeddings file, build the index and save it, skipping the
 * first three steps when the embeddings file exists and the index steps when the
 * index directory exists. Every error is caught and logged; the run never throws.
 */
module Ingestion {
  import opened Wrappers
  import opened Text
  import opened Chunker
  import opened Embeddings
  import opened VectorIndex

  /**
   * A file or directory on disk. `pathExists` only tells Absent from the rest; a
   * Damaged artifact (a write that stopped half-way) exists but cannot be read.
   */
  datatype Artifact<T> = Absent | Complete(content: T) | Damaged

  /** What an attempted write left on disk. */
  datatype WriteOutcome = Written | FailedBeforeWriting | FailedMidWrite

  /** What the run reports on the console, in order. */
  datatype Step =
    | LoadedEmbeddings | ExtractedText | SplitText | EmbeddedChunks | SavedEmbeddings
    | SkippedIndex | BuiltIndex | SavedIndex | ReportedError

  datatype PipelineError =
    | ReadFailed | ExtractionFailed | EmbeddingFailed | WriteFailed | NoIndexToSave | SaveFailed

  /** The collaborators of a run: the extracted text (None if extraction fails), the model, and the disk's writes. */
  datatype Environment = Environment(
    pdfText: Option<string>,
    embedder: Embedder,
    embeddingsWrite: WriteOutcome,
    indexSave: WriteOutcome)

  /** The steps that compute embeddings from the document. */
  predicate EmbeddingWork(s: Step)
  {
    s == ExtractedText || s == SplitText || s == EmbeddedChunks || s == SavedEmbeddings
  }

  /**
   * What a fresh embeddings file holds: the chunking of the text, each chunk with
   * the vector the model gives it.
   */
  predicate ComputedFrom(records: seq<EmbeddedChunk>, text: string, embedder: Embedder)
  {
    && IsChunking(Texts(records), text, DefaultChunkSize)
    && forall i :: 0 <= i < |records| ==> embedder.embed(records[i].text) == Some(records[i].embedding)
  }

  /**
   * The model loads and embeds every chunk of the text. The chunking of a text is
   * unique (`ChunkingIsUnique`), so this is about the chunks the run computes.
   */
  ghost predicate EmbedsText(embedder: Embedder, text: string)
  {
    forall chunks :: IsChunking(chunks, text, DefaultChunkSize) ==> EmbedsAll(embedder, chunks)
  }

  /** The entries of the index built from the records of an embeddings file. */
  function IndexOf(records: seq<EmbeddedChunk>): seq<IndexEntry>
  {
    Entries(Documents(Texts(records)), PrecomputedMap(records, Texts(records)))
  }

  /** The working directory of the run: the two checkpoints and the console. */
  class Workspace {
    /** `./embeddings.json` */
    var embeddingsFile: Artifact<seq<EmbeddedChunk>>
    /** `./faiss_index` */
    var indexDirectory: Artifact<seq<IndexEntry>>
    ghost var log: seq<Step>

    constructor (embeddingsFile: Artifact<seq<EmbeddedChunk>>, indexDirectory: Artifact<seq<IndexEntry>>)
      ensures this.embeddingsFile == embeddingsFile && this.indexDirectory == indexDirectory && log == []
    {
      this.embeddingsFile := embeddingsFile;
      this.indexDirectory := indexDirectory;
      log := [];
    }

    /** The steps logged since `before`. */
    ghost function StepsSince(before: nat): seq<Step>
      reads this
    {
      if before <= |log| then log[before..] else []
    }

    /**
     * The first checkpoint: load the embeddings file if it exists, otherwise
     * extract, chunk, embed and write it.
     */
    method LoadOrComputeEmbeddings(env: Environment) returns (r: Result<seq<EmbeddedChunk>, PipelineError>)
      modifies this`embeddingsFile, this`log
      ensures old(embeddingsFile).Complete? ==>
                r == Success(old(embeddingsFile).content) && embeddingsFile == old(embeddingsFile)
                && log == old(log) + [LoadedEmbeddings]
      ensures old(embeddingsFile).Damaged? ==>
                r == Failure(ReadFailed) && embeddingsFile == Damaged && log == old(log) + [ReportedError]
      ensures old(embeddingsFile).Absent? && r.Success? ==>
                && env.pdfText.Some?
                && ComputedFrom(r.value, env.pdfText.value, env.embedder)
                && embeddingsFile == Complete(r.value)
                && log == old(log) + [ExtractedText, SplitText, EmbeddedChunks, SavedEmbeddings]
      ensures old(embeddingsFile).Absent? && r == Failure(ExtractionFailed) ==>
                env.pdfText.None? && embeddingsFile == Absent && log == old(log) + [ReportedError]
      ensures old(embeddingsFile).Absent? && r == Failure(EmbeddingFailed) ==>
                embeddingsFile == Absent && log == old(log) + [ExtractedText, SplitText, ReportedError]
      ensures old(embeddingsFile).Absent? && r == Failure(WriteFailed) ==>
                env.embeddingsWrite != Written
                && (embeddingsFile == if env.embeddingsWrite == FailedMidWrite then Damaged else Absent)
                && log == old(log) + [ExtractedText, SplitText, EmbeddedChunks, ReportedError]
      ensures old(embeddingsFile).Absent? && r.Failure? ==>
                r.error in {ExtractionFailed, EmbeddingFailed, WriteFailed}
      ensures old(embeddingsFile).Absent? && env.pdfText.None? ==> r == Failure(ExtractionFailed)
      ensures old(embeddingsFile).Absent? && env.pdfText.Some? ==>
                (r == Failure(EmbeddingFailed) <==> !EmbedsText(env.embedder, env.pdfText.value))
      ensures old(embeddingsFile).Absent? && env.pdfText.Some? && EmbedsText(env.embedder, env.pdfText.value) ==>
                (r.Success? <==> env.embeddingsWrite == Written)
      ensures r.Success? ==> embeddingsFile == Complete(r.value)
    {
      match embeddingsFile {
        case Complete(records) =>
          log := log + [LoadedEmbeddings];
          return Success(records);
        case Damaged =>
          // readJSON rejects on a half-written file
          log := log + [ReportedError];
          return Failure(ReadFailed);
        case Absent =>
      }
      r := ComputeEmbeddings(env);
    }

    /** No embeddings file yet: extract the text, chunk it, embed the chunks and write the file. */
    method ComputeEmbeddings(env: Environment) returns (r: Result<seq<EmbeddedChunk>, PipelineError>)
      requires embeddingsFile.Absent?
      modifies this`embeddingsFile, this`log
      ensures r.Success? ==>
                && env.pdfText.Some?
                && ComputedFrom(r.value, env.pdfText.value, env.embedder)
                && embeddingsFile == Complete(r.value)
                && log == old(log) + [ExtractedText, SplitText, EmbeddedChunks, SavedEmbeddings]
      ensures r == Failure(ExtractionFailed) ==>
                env.pdfText.None? && embeddingsFile == Absent && log == old(log) + [ReportedError]
      ensures r == Failure(EmbeddingFailed) ==>
                embeddingsFile == Absent && log == old(log) + [ExtractedText, SplitText, ReportedError]
      ensures r == Failure(WriteFailed) ==>
                env.embeddingsWrite != Written
                && (embeddingsFile == if env.embeddingsWrite == FailedMidWrite then Damaged else Absent)
                && log == old(log) + [ExtractedText, SplitText, EmbeddedChunks, ReportedError]
      ensures r.Failure? ==> r.error in {ExtractionFailed, EmbeddingFailed, WriteFailed}
      ensures env.pdfText.None? ==> r == Failure(ExtractionFailed)
      ensures env.pdfText.Some? ==> (r == Failure(EmbeddingFailed) <==> !EmbedsText(env.embedder, env.pdfText.value))
      ensures env.pdfText.Some? && EmbedsText(env.embedder, env.pdfText.value) ==>
                (r.Success? <==> env.embeddingsWrite == Written)
    {
      if env.pdfText.None? {
        log := log + [ReportedError];
        return Failure(ExtractionFailed);
      }
      log := log + [ExtractedText];
      var chunks := SplitIntoChunks(env.pdfText.value);
      log := log + [SplitText];
      var embedded;
      ghost var batches;
      embedded, batches := GenerateEmbeddings(chunks, env.embedder);
      if embedded.None? {
        log := log + [ReportedError];
        return Failure(EmbeddingFailed);
      }
      var embeddings := embedded.value;
      forall other | IsChunking(other, env.pdfText.value, DefaultChunkSize)
        ensures EmbedsAll(env.embedder, other)
      {
        ChunkingIsUnique(other, chunks, env.pdfText.value, DefaultChunkSize);
      }
      log := log + [EmbeddedChunks];
      assert Texts(embeddings) == chunks;
      assert ComputedFrom(embeddings, env.pdfText.value, env.embedder);
      var saved := WriteEmbeddingsFile(embeddings, env.embeddingsWrite);
      if !saved {
        return Failure(WriteFailed);
      }
      return Success(embeddings);
    }

    /**
     * `writeJSON(embeddings)`: a write that fails before it starts leaves the file
     * as it was, one cut off mid-way leaves a damaged file.
     */
    method WriteEmbeddingsFile(records: seq<EmbeddedChunk>, outcome: WriteOutcome) returns (saved: bool)
      modifies this`embeddingsFile, this`log
      ensures saved <==> outcome == Written
      ensures embeddingsFile == match outcome
                                case Written => Complete(records)
                                case FailedBeforeWriting => old(embeddingsFile)
                                case FailedMidWrite => Damaged
      ensures log == old(log) + [if saved then SavedEmbeddings else ReportedError]
    {
      match outcome {
        case Written =>
          embeddingsFile := Complete(records);
          log := log + [SavedEmbeddings];
          return true;
        case FailedBeforeWriting =>
          log := log + [ReportedError];
          return false;
        case FailedMidWrite =>
          embeddingsFile := Damaged;
          log := log + [ReportedError];
          return false;
      }
    }

    /** The second checkpoint: build and save the index unless the index directory exists. */
    method BuildIndexUnlessPresent(records: seq<EmbeddedChunk>, env: Environment) returns (err: Option<PipelineError>)
      modifies this`indexDirectory, this`log
      ensures !old(indexDirectory).Absent? ==>
                err.None? && indexDirectory == old(indexDirectory) && log == old(log) + [SkippedIndex]
      ensures old(indexDirectory).Absent? && err.None? ==>
                |records| > 0 && indexDirectory == Complete(IndexOf(records))
                && log == old(log) + [BuiltIndex, SavedIndex]
      ensures old(indexDirectory).Absent? && err.Some? ==>
                && !indexDirectory.Complete?
                && (|records| == 0 ==> err == Some(NoIndexToSave))
                && log == old(log) + [BuiltIndex, ReportedError]
      ensures old(indexDirectory).Absent? ==> (err.None? <==> |records| > 0 && env.indexSave == Written)
      ensures err == Some(NoIndexToSave) <==> old(indexDirectory).Absent? && |records| == 0
      ensures err == Some(SaveFailed) ==>
                && old(indexDirectory).Absent? && |records| > 0 && env.indexSave != Written
                && indexDirectory == (if env.indexSave == FailedMidWrite then Damaged else Absent)
    {
      if !indexDirectory.Absent? {
        log := log + [SkippedIndex];
        return None;
      }
      var chunks := Texts(records);
      var store := CreateFaissIndex(records, chunks);
      log := log + [BuiltIndex];
      if store == null {
        // `vectorStore.save` on null throws a TypeError
        log := log + [ReportedError];
        return Some(NoIndexToSave);
      }
      match env.indexSave {
        case Written =>
          indexDirectory := Complete(store.entries);
          log := log + [SavedIndex];
          return None;
        case FailedBeforeWriting =>
          log := log + [ReportedError];
          return Some(SaveFailed);
        case FailedMidWrite =>
          indexDirectory := Damaged;
          log := log + [ReportedError];
          return Some(SaveFailed);
      }
    }

    /**
     * `main()`: both checkpoints in order. With the embeddings file present nothing
     * is extracted, chunked or embedded; with the index directory present no index
     * is built; when an index is built, the embeddings file was complete first;
     * a run that reports no error leaves both checkpoints on disk.
     */
    method RunPipeline(env: Environment) returns (err: Option<PipelineError>)
      modifies this
      ensures old(embeddingsFile).Complete? ==>
                embeddingsFile == old(embeddingsFile)
                && forall j :: |old(log)| <= j < |log| ==> !EmbeddingWork(log[j])
      ensures !old(indexDirectory).Absent? ==>
                indexDirectory == old(indexDirectory)
                && forall j :: |old(log)| <= j < |log| ==> log[j] != BuiltIndex
      ensures forall j :: |old(log)| <= j < |log| && log[j] == BuiltIndex ==>
                embeddingsFile.Complete? && j > |old(log)|
                && (log[j - 1] == LoadedEmbeddings || log[j - 1] == SavedEmbeddings)
      ensures old(indexDirectory).Absent? && indexDirectory.Complete? ==>
                embeddingsFile.Complete? && indexDirectory.content == IndexOf(embeddingsFile.content)
      ensures old(embeddingsFile).Absent? && embeddingsFile.Complete? ==>
                env.pdfText.Some? && IsChunking(Texts(embeddingsFile.content), env.pdfText.value, DefaultChunkSize)
      ensures err.None? ==> embeddingsFile.Complete? && !indexDirectory.Absent?
      // a run where every step works reports no error
      ensures old(embeddingsFile).Complete?
              && (old(indexDirectory).Absent? ==> |old(embeddingsFile).content| > 0 && env.indexSave == Written) ==>
                err.None?
      ensures old(embeddingsFile).Absent? && env.pdfText.Some? && EmbedsText(env.embedder, env.pdfText.value)
              && env.embeddingsWrite == Written && (old(indexDirectory).Absent? ==> env.indexSave == Written) ==>
                err.None?
      ensures old(embeddingsFile).Damaged? ==>
                err == Some(ReadFailed) && embeddingsFile == Damaged && indexDirectory == old(indexDirectory)
    {
      var embeddings := LoadOrComputeEmbeddings(env);
      if embeddings.Failure? {
        return Some(embeddings.error);
      }
      err := BuildIndexUnlessPresent(embeddings.value, env);
    }
  }
}
