/** `query_vector_store`: the confidence floor on the similarity search and the joining of the
    retrieved chunks. The search itself is an input: the ranked (page content, relevance) pairs. */
module Retrieval {
  import opened Text

  /** One hit of the similarity search: a document chunk and its relevance score. */
  datatype ScoredDoc = ScoredDoc(pageContent: string, score: real)

  /** Number of chunks asked of the similarity search. */
  const TopK: nat := 5
  /** Below this relevance the top hit is not trusted. */
  const Threshold: real := 0.3
  /** What the gateway answers when nothing relevant was found. */
  const NoRelevantInfo: string := "No relevant information found."
  /** What separates two retrieved chunks in the context text. */
  const ChunkSeparator: string := "\n\n---\n\n"

  /** The chunk texts of the hits, in rank order. */
  function PageContents(results: seq<ScoredDoc>): (r: seq<string>)
    ensures |r| == |results|
    ensures forall i :: 0 <= i < |results| ==> r[i] == results[i].pageContent
    decreases |results|
  {
    if |results| == 0 then [] else [results[0].pageContent] + PageContents(results[1..])
  }

  /** The one test the gateway applies: there is a top hit and its score reaches the floor. */
  predicate Confident(results: seq<ScoredDoc>) {
    |results| > 0 && results[0].score >= Threshold
  }

  /** The context text built from the ranked hits. */
  function QueryVectorStore(results: seq<ScoredDoc>): (r: string)
    ensures !Confident(results) ==> r == NoRelevantInfo
    ensures Confident(results) ==> r == Join(PageContents(results), ChunkSeparator)
  {
    if |results| == 0 || results[0].score < Threshold then NoRelevantInfo
    else Join(PageContents(results), ChunkSeparator)
  }

  /** When the top hit is confident, the context holds every hit, whatever its own score, in rank
      order: hit i sits verbatim at its offset, one separator follows every hit but the last, and
      the length leaves room for nothing else (exactly |results| - 1 separators). */
  lemma RetrievedChunkAt(results: seq<ScoredDoc>, i: nat)
    requires Confident(results) && i < |results|
    ensures var parts := PageContents(results);
            var r := QueryVectorStore(results);
            var start := PieceStart(parts, ChunkSeparator, i);
            var end := start + |results[i].pageContent|;
            && |r| == TotalLength(parts) + (|results| - 1) * |ChunkSeparator|
            && end <= |r|
            && r[start..end] == results[i].pageContent
            && (i + 1 < |results| ==>
                  && PieceStart(parts, ChunkSeparator, i + 1) == end + |ChunkSeparator| <= |r|
                  && r[end..end + |ChunkSeparator|] == ChunkSeparator)
  {
    JoinLength(PageContents(results), ChunkSeparator);
    JoinPieceAt(PageContents(results), ChunkSeparator, i);
    if i + 1 < |results| {
      JoinSeparatorAt(PageContents(results), ChunkSeparator, i);
    }
  }

  /** A single confident hit is passed on unchanged, with no separator. */
  lemma SingleHitVerbatim(doc: ScoredDoc)
    requires doc.score >= Threshold
    ensures QueryVectorStore([doc]) == doc.pageContent
  {
    assert PageContents([doc]) == [doc.pageContent];
  }

  /** Only the top hit's score is consulted: two result lists with the same chunks and the same top
      score give the same context, however the lower-ranked scores differ. */
  lemma OnlyTopScoreMatters(a: seq<ScoredDoc>, b: seq<ScoredDoc>)
    requires |a| == |b| > 0 && a[0].score == b[0].score
    requires forall i :: 0 <= i < |a| ==> a[i].pageContent == b[i].pageContent
    ensures QueryVectorStore(a) == QueryVectorStore(b)
  {
    assert PageContents(a) == PageContents(b);
  }
}
