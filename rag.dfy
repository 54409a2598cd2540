/**
 * The retrieval service: a process-wide vector store that is loaded once from the
 * index directory and then answers similarity searches with the text of the
 * nearest chunks. Until the store is loaded every search answers nothing.
 */
module Rag {
  import opened Wrappers
  import opened Text
  import opened Ingestion
  import opened VectorIndex

  /** `k` when the caller gives none. */
  const DefaultTopK: nat := 5

  datatype InitError = ModelLoadFailed | IndexLoadFailed

  datatype SearchError = SearchFailed

  /**
   * The store's similarity search: given the stored entries, the query and `k`, the
   * documents found, best first, or the error the embedding or search raised.
   */
  type Search = (seq<IndexEntry>, string, nat) -> Result<seq<Document>, SearchError>

  /** A search that behaves like a nearest-neighbour search: at most `k` results, each a stored document. */
  predicate WellBehaved(search: Search, entries: seq<IndexEntry>, prompt: string, k: nat)
  {
    search(entries, prompt, k).Success? ==>
      var found := search(entries, prompt, k).value;
      && |found| <= k
      && forall d :: d in found ==> exists e :: e in entries && e.document == d
  }

  /** `text` is the page content of one of the stored entries. */
  predicate IsStoredText(entries: seq<IndexEntry>, text: string)
  {
    exists e :: e in entries && e.document.pageContent == text
  }

  /** The page contents of a list of documents. */
  function PageContents(docs: seq<Document>): (texts: seq<string>)
    ensures |texts| == |docs|
    ensures forall i :: 0 <= i < |docs| ==> texts[i] == docs[i].pageContent
  {
    Map((d: Document) => d.pageContent, docs)
  }

  class RagService {
    /** Set once the embedding model has loaded. */
    var embeddingPipeline: bool
    /** The loaded index, or None while unset. */
    var vectorStore: Option<seq<IndexEntry>>

    /** The module's state before `initializeRAG` has run. */
    constructor ()
      ensures !embeddingPipeline && vectorStore == None
    {
      embeddingPipeline := false;
      vectorStore := None;
    }

    /**
     * `initializeRAG()`: load the embedding model, then the index directory. A
     * failure of either is thrown to the caller; the store is set only by a
     * successful load, and a failed model load leaves everything as it was.
     */
    method InitializeRAG(modelLoads: bool, indexDirectory: Artifact<seq<IndexEntry>>)
      returns (r: Result<(), InitError>)
      modifies this
      ensures !modelLoads ==>
                r == Failure(ModelLoadFailed) && embeddingPipeline == old(embeddingPipeline)
                && vectorStore == old(vectorStore)
      ensures modelLoads ==> embeddingPipeline
      ensures modelLoads && indexDirectory.Complete? ==>
                r == Success(()) && vectorStore == Some(indexDirectory.content)
      ensures modelLoads && !indexDirectory.Complete? ==>
                r == Failure(IndexLoadFailed) && vectorStore == old(vectorStore)
      ensures r.Success? <==> modelLoads && indexDirectory.Complete?
    {
      if !modelLoads {
        return Failure(ModelLoadFailed);
      }
      embeddingPipeline := true;
      match indexDirectory {
        case Complete(entries) =>
          vectorStore := Some(entries);
          return Success(());
        case _ =>
          return Failure(IndexLoadFailed);
      }
    }

    /**
     * `retrieveContext(prompt, k)`: nothing while the store is unset; otherwise the
     * page contents of the documents the search finds, its errors passed on.
     */
    function RetrieveContext(prompt: string, search: Search, k: nat := DefaultTopK): (r: Result<seq<string>, SearchError>)
      reads this
      ensures vectorStore.None? ==> r == Success([])
      ensures vectorStore.Some? ==> (r.Success? <==> search(vectorStore.value, prompt, k).Success?)
      ensures r.Success? && vectorStore.Some? ==>
                r.value == PageContents(search(vectorStore.value, prompt, k).value)
    {
      match vectorStore
      case None => Success([])
      case Some(entries) =>
        match search(entries, prompt, k)
        case Failure(e) => Failure(e)
        case Success(docs) => Success(PageContents(docs))
    }

    /**
     * With a well-behaved search, what is retrieved is at most `k` texts, each the
     * page content of a stored chunk.
     */
    lemma RetrievedTextsAreStored(prompt: string, search: Search, k: nat)
      requires vectorStore.Some? ==> WellBehaved(search, vectorStore.value, prompt, k)
      ensures RetrieveContext(prompt, search, k).Success? ==>
                var texts := RetrieveContext(prompt, search, k).value;
                && |texts| <= k
                && forall i :: 0 <= i < |texts| ==> vectorStore.Some? && IsStoredText(vectorStore.value, texts[i])
    {
      if vectorStore.Some? && search(vectorStore.value, prompt, k).Success? {
        var entries := vectorStore.value;
        var docs := search(entries, prompt, k).value;
        var texts := RetrieveContext(prompt, search, k).value;
        assert texts == PageContents(docs);
        forall i | 0 <= i < |texts|
          ensures IsStoredText(entries, texts[i])
        {
          assert docs[i] in docs;
          var e :| e in entries && e.document == docs[i];
          assert e.document.pageContent == texts[i];
        }
      }
    }
  }
}
