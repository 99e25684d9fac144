/** `extract_documents`: the retrieval context is the text of the chunks named by
    the first row of a vector-index search, concatenated in search order. The
    search itself (FAISS) is a parameter of the model. */
module Retrieval {
  import opened Seqs

  /** The `k` that `extract_documents` searches with when its caller gives none. */
  const DefaultK: nat := 3

  /** The index array of `index.search(query, k)`: one row of chunk positions per
      query vector, nearest first. */
  type SearchRows = seq<seq<int>>

  /** Every position of `row` names one of `n` chunks. */
  predicate InRange(row: seq<int>, n: nat)
  {
    forall j :: 0 <= j < |row| ==> 0 <= row[j] < n
  }

  /** The chunks a search row names, in row order, repeats kept. */
  function Selected(chunks: seq<string>, row: seq<int>): seq<string>
    requires InRange(row, |chunks|)
  {
    seq(|row|, j requires 0 <= j < |row| => chunks[row[j]])
  }

  /** The context for a search row: its chunks one after the other. Its length is
      the sum of the lengths of the selected chunks. */
  function Context(chunks: seq<string>, row: seq<int>): (r: string)
    requires InRange(row, |chunks|)
    ensures |r| == SumLengths(Selected(chunks, row))
  {
    Flatten(Selected(chunks, row))
  }

  lemma SelectedPrefix(chunks: seq<string>, row: seq<int>, j: nat)
    requires InRange(row, |chunks|) && j <= |row|
    ensures Selected(chunks, row)[..j] == Selected(chunks, row[..j])
  {
  }

  /** `extract_documents(index, query_embedding, all_chunks, k)`: starting from "",
      append `all_chunks[idx]` for each `idx` of the first row of the search
      result, in that order. */
  method ExtractDocuments<I, Q>(index: I, queryEmbedding: Q, allChunks: seq<string>, k: nat,
                                search: (I, Q, nat) -> SearchRows)
    returns (context: string)
    requires |search(index, queryEmbedding, k)| > 0
    requires InRange(search(index, queryEmbedding, k)[0], |allChunks|)
    ensures context == Context(allChunks, search(index, queryEmbedding, k)[0])
  {
    context := "";
    var indices := search(index, queryEmbedding, k);
    var row := indices[0];
    for j := 0 to |row|
      invariant context == Context(allChunks, row[..j])
    {
      SelectedPrefix(allChunks, row[..j + 1], j);
      assert row[..j + 1][..j] == row[..j];
      context := context + allChunks[row[j]];
    }
    assert row[..|row|] == row;
  }

  /** The context of a row split in two is the two contexts one after the other:
      nothing is reordered or merged across the split. */
  lemma {:induction false} ContextAppend(chunks: seq<string>, r1: seq<int>, r2: seq<int>)
    requires InRange(r1, |chunks|) && InRange(r2, |chunks|)
    ensures InRange(r1 + r2, |chunks|)
    ensures Context(chunks, r1 + r2) == Context(chunks, r1) + Context(chunks, r2)
  {
    assert Selected(chunks, r1 + r2) == Selected(chunks, r1) + Selected(chunks, r2);
    FlattenAppend(Selected(chunks, r1), Selected(chunks, r2));
  }

  /** Each entry of the row, a repeated one included, contributes its own copy of
      the chunk, right after the text contributed by the entries before it. */
  lemma ContextBlock(chunks: seq<string>, row: seq<int>, j: nat)
    requires InRange(row, |chunks|) && j < |row|
    ensures |Context(chunks, row[..j])| + |chunks[row[j]]| <= |Context(chunks, row)|
    ensures Context(chunks, row)[|Context(chunks, row[..j])|..|Context(chunks, row[..j])| + |chunks[row[j]]|]
            == chunks[row[j]]
  {
    SelectedPrefix(chunks, row, j);
    FlattenBlock(Selected(chunks, row), j);
  }

  /** No deduplication: a chunk named twice appears twice. */
  lemma RepeatedIndexRepeatsChunk(chunks: seq<string>, i: int)
    requires 0 <= i < |chunks|
    ensures InRange([i, i], |chunks|)
    ensures Context(chunks, [i, i]) == chunks[i] + chunks[i]
  {
    assert Selected(chunks, [i]) == [chunks[i]];
    assert [chunks[i]][..0] == [];
    assert Context(chunks, [i]) == chunks[i];
    assert [i] + [i] == [i, i];
    ContextAppend(chunks, [i], [i]);
  }
}
