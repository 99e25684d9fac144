/** `chunk_doc`: split every description with one text splitter and collect all
    pieces, document after document. The splitter (`RecursiveCharacterTextSplitter`)
    is a parameter of the model: its size and overlap guarantees are its own. */
module Chunking {
  import opened Seqs
  import News

  /** The splitter's configuration, in characters. */
  datatype SplitterConfig = SplitterConfig(chunkSize: nat, chunkOverlap: nat)

  /** The one configuration `chunk_doc` builds its splitter with. */
  const ChunkConfig: SplitterConfig := SplitterConfig(1600, 200)

  /** `RecursiveCharacterTextSplitter(config).split_text(doc)`, left uninterpreted. */
  type Splitter = (SplitterConfig, string) -> seq<string>

  /** The pieces of each document, split with `ChunkConfig`, in document order. */
  function PiecesPerDocument(split: Splitter, docs: seq<string>): seq<seq<string>>
  {
    seq(|docs|, i requires 0 <= i < |docs| => split(ChunkConfig, docs[i]))
  }

  /** All pieces of all documents; as many as the documents' piece counts add up to. */
  function ChunksOf(split: Splitter, docs: seq<string>): (r: seq<string>)
    ensures |r| == SumLengths(PiecesPerDocument(split, docs))
    ensures docs == [] ==> r == []
  {
    Flatten(PiecesPerDocument(split, docs))
  }

  /** `chunk_doc(documents)`: build the splitter once with size 1600 and overlap 200,
      then extend the list with the pieces of each description in turn. */
  method ChunkDoc(documents: News.NewsFrame, split: Splitter) returns (allChunks: seq<string>)
    ensures allChunks == ChunksOf(split, documents.description)
  {
    var textSplitter := (doc: string) => split(ChunkConfig, doc);
    var docs := documents.description;
    allChunks := [];
    for i := 0 to |docs|
      invariant allChunks == ChunksOf(split, docs[..i])
    {
      var chunks := textSplitter(docs[i]);
      assert PiecesPerDocument(split, docs[..i + 1])
          == PiecesPerDocument(split, docs[..i]) + [chunks];
      FlattenAppend(PiecesPerDocument(split, docs[..i]), [chunks]);
      assert Flatten([chunks]) == chunks by {
        assert [chunks][..0] == [];
      }
      allChunks := allChunks + chunks;
    }
    assert docs[..|docs|] == docs;
  }

  /** Document order is kept: the chunks of two runs of documents are the chunks
      of the first run followed by those of the second. */
  lemma ChunksAppend(split: Splitter, d1: seq<string>, d2: seq<string>)
    ensures ChunksOf(split, d1 + d2) == ChunksOf(split, d1) + ChunksOf(split, d2)
  {
    assert PiecesPerDocument(split, d1 + d2)
        == PiecesPerDocument(split, d1) + PiecesPerDocument(split, d2);
    FlattenAppend(PiecesPerDocument(split, d1), PiecesPerDocument(split, d2));
  }

  /** The pieces of document `i` sit together in the output, in the splitter's
      order, right after the pieces of the documents before it. */
  lemma DocumentPiecesContiguous(split: Splitter, docs: seq<string>, i: nat)
    requires i < |docs|
    ensures var start := |ChunksOf(split, docs[..i])|;
      && start + |split(ChunkConfig, docs[i])| <= |ChunksOf(split, docs)|
      && ChunksOf(split, docs)[start..start + |split(ChunkConfig, docs[i])|] == split(ChunkConfig, docs[i])
  {
    var pieces := PiecesPerDocument(split, docs);
    assert pieces[..i] == PiecesPerDocument(split, docs[..i]);
    FlattenBlock(pieces, i);
  }
}
