/**
 * The word-greedy chunker of the ingestion pipeline: the extracted text is cut at
 * single spaces into words, and words are gathered into a chunk until the chunk,
 * joined with spaces, first reaches the target size.
 */
module Chunker {
  import opened Text

  /** The default target size of a chunk, in characters. */
  const DefaultChunkSize: int := 500

  /** Every word boundary (space) inside `chunk` lies before position `size`. */
  predicate BoundariesBelow(chunk: string, size: int)
  {
    forall j :: 0 <= j < |chunk| && chunk[j] == ' ' ==> j < size
  }

  /**
   * What the chunker promises: at least one chunk; the chunks joined with single
   * spaces are the text; every chunk but the last reaches `size`; and no chunk
   * could have been closed earlier, because every word boundary in it comes before
   * `size` (a chunk is closed at the first word that makes it reach `size`, so it
   * can run past `size` by the length of that word).
   */
  predicate IsChunking(chunks: seq<string>, text: string, size: int)
  {
    && |chunks| >= 1
    && Join(chunks, " ") == text
    && (forall i :: 0 <= i < |chunks| - 1 ==> |chunks[i]| >= size)
    && (forall i :: 0 <= i < |chunks| ==> BoundariesBelow(chunks[i], size))
  }

  /** `splitIntoChunks(text, chunkSize)`. */
  method SplitIntoChunks(text: string, chunkSize: int := DefaultChunkSize) returns (chunks: seq<string>)
    ensures IsChunking(chunks, text, chunkSize)
  {
    var words := Split(text, ' ');
    chunks := [];
    var currentChunk: seq<string> := [];
    ghost var groups: seq<seq<string>> := [];
    StartScan(words, chunkSize);
    for i := 0 to |words|
      invariant Scanned(words, i, groups, chunks, currentChunk, chunkSize)
    {
      PushWord(words, i, groups, chunks, currentChunk, chunkSize);
      currentChunk := currentChunk + [words[i]];
      var joined := Join(currentChunk, " ");
      if |joined| >= chunkSize {
        chunks := chunks + [joined];
        groups := groups + [currentChunk];
        currentChunk := [];
      }
    }
    ghost var closedGroups, closedChunks := groups, chunks;
    if |currentChunk| > 0 {
      chunks := chunks + [Join(currentChunk, " ")];
      groups := groups + [currentChunk];
    }
    Finish(words, closedGroups, closedChunks, currentChunk, chunkSize, groups, chunks);
    Assemble(text, groups, chunks, chunkSize);
  }

  /** Before the loop: nothing scanned, nothing closed, the open chunk empty. */
  lemma StartScan(words: seq<string>, size: int)
    requires forall k :: 0 <= k < |words| ==> ' ' !in words[k]
    ensures Scanned(words, 0, [], [], [], size)
  {
    assert Flatten<string>([]) + [] == words[..0];
  }

  /**
   * The loop's state after the first `i` words: the closed chunks are the joins
   * of the word groups, which together with the open chunk are the words so far;
   * each closed chunk reached the size with its boundaries below it; the open
   * chunk is still below the size.
   */
  ghost predicate Scanned(words: seq<string>, i: int, groups: seq<seq<string>>, chunks: seq<string>,
                          current: seq<string>, size: int)
  {
    && 0 <= i <= |words|
    && (forall k :: 0 <= k < |words| ==> ' ' !in words[k])
    && Flatten(groups) + current == words[..i]
    && chunks == JoinEach(groups, " ")
    && (forall k :: 0 <= k < |groups| ==> |groups[k]| >= 1)
    && (forall k :: 0 <= k < |chunks| ==> |chunks[k]| >= size && BoundariesBelow(chunks[k], size))
    && (current != [] ==> |Join(current, " ")| < size)
    && BoundariesBelow(Join(current, " "), size)
  }

  /** One iteration of the loop keeps Scanned, whether or not it closes the chunk. */
  lemma PushWord(words: seq<string>, i: int, groups: seq<seq<string>>, chunks: seq<string>,
                 current: seq<string>, size: int)
    requires Scanned(words, i, groups, chunks, current, size) && i < |words|
    ensures var next := current + [words[i]];
            if |Join(next, " ")| >= size
            then Scanned(words, i + 1, groups + [next], chunks + [Join(next, " ")], [], size)
            else Scanned(words, i + 1, groups, chunks, next, size)
  {
    var next := current + [words[i]];
    PushKeepsBoundaries(current, words[i], size);
    assert words[..i + 1] == words[..i] + [words[i]];
    assert Flatten(groups) + next == words[..i + 1];
    FlattenAppend(groups, next);
    assert (groups + [next])[..|groups|] == groups;
  }

  /** After the loop, emitting the open chunk (if any) leaves a complete grouping of the words. */
  lemma Finish(words: seq<string>, groups: seq<seq<string>>, chunks: seq<string>, current: seq<string>, size: int,
               gs: seq<seq<string>>, cs: seq<string>)
    requires Scanned(words, |words|, groups, chunks, current, size) && |words| >= 1
    requires gs == if |current| > 0 then groups + [current] else groups
    requires cs == if |current| > 0 then chunks + [Join(current, " ")] else chunks
    ensures Flatten(gs) == words && cs == JoinEach(gs, " ") && |cs| >= 1
    ensures forall k :: 0 <= k < |gs| ==> |gs[k]| >= 1
    ensures forall k :: 0 <= k < |cs| - 1 ==> |cs[k]| >= size
    ensures forall k :: 0 <= k < |cs| ==> BoundariesBelow(cs[k], size)
  {
    assert words[..|words|] == words;
    FlattenAppend(groups, current);
    assert (groups + [current])[..|groups|] == groups;
  }

  /** Joining each group of the text's words, the groups in order, gives a chunking of the text. */
  lemma Assemble(text: string, groups: seq<seq<string>>, chunks: seq<string>, size: int)
    requires Flatten(groups) == Split(text, ' ') && chunks == JoinEach(groups, " ") && |chunks| >= 1
    requires forall k :: 0 <= k < |groups| ==> |groups[k]| >= 1
    requires forall k :: 0 <= k < |chunks| - 1 ==> |chunks[k]| >= size
    requires forall k :: 0 <= k < |chunks| ==> BoundariesBelow(chunks[k], size)
    ensures IsChunking(chunks, text, size)
  {
    JoinFlatten(groups, " ");
    JoinSplit(text, ' ');
  }

  /** Adding a word without spaces to a chunk still under `size` keeps its boundaries below `size`. */
  lemma PushKeepsBoundaries(current: seq<string>, word: string, size: int)
    requires current != [] ==> |Join(current, " ")| < size
    requires BoundariesBelow(Join(current, " "), size)
    requires ' ' !in word
    ensures BoundariesBelow(Join(current + [word], " "), size)
  {
    var next := current + [word];
    if current != [] {
      assert next[..|next| - 1] == current;
      var j := Join(current, " ");
      assert Join(next, " ") == j + " " + word;
      assert forall m :: |j| < m < |j + " " + word| ==> (j + " " + word)[m] == word[m - |j| - 1];
    }
  }

  /**
   * The chunking is determined by the text and the size: two chunk lists that
   * both satisfy IsChunking are the same list.
   */
  lemma {:induction false} ChunkingIsUnique(c: seq<string>, d: seq<string>, text: string, size: int)
    requires IsChunking(c, text, size) && IsChunking(d, text, size)
    ensures c == d
  {
    FirstChunk(c, text, size);
    FirstChunk(d, text, size);
    assert |c[0]| == |d[0]|;
    assert c[0] == d[0];
    if |c| >= 2 {
      JoinFront(c, " ");
      JoinFront(d, " ");
      var rest := text[|c[0]| + 1..];
      assert IsChunking(c[1..], rest, size);
      assert IsChunking(d[1..], rest, size);
      ChunkingIsUnique(c[1..], d[1..], rest, size);
      assert c == [c[0]] + c[1..];
      assert d == [d[0]] + d[1..];
    }
  }

  /**
   * Where a chunking makes its first cut: the first chunk is a prefix of the text
   * with no word boundary at or after `size`, and it ends either at the end of the
   * text (then it is the only chunk) or at a space at or after `size`.
   */
  lemma FirstChunk(c: seq<string>, text: string, size: int)
    requires IsChunking(c, text, size)
    ensures |c[0]| <= |text| && c[0] == text[..|c[0]|]
    ensures |c| == 1 <==> |c[0]| == |text|
    ensures |c| >= 2 ==> |c[0]| < |text| && text[|c[0]|] == ' ' && |c[0]| >= size
    ensures forall j :: 0 <= j < |c[0]| && text[j] == ' ' ==> j < size
  {
    if |c| >= 2 {
      JoinFront(c, " ");
    }
  }

  /** The chunking of the empty text is the single empty chunk: chunks are not always non-empty. */
  lemma EmptyTextGivesEmptyChunk(chunks: seq<string>, size: int)
    requires IsChunking(chunks, "", size)
    ensures chunks == [""]
  {
    ChunkingIsUnique(chunks, [""], "", size);
  }
}
