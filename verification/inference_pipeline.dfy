/** `run_pipeline`: fetch news links for the request, download their
    descriptions, chunk them, embed the chunks into a vector index, encode the
    request with the same embedding model, retrieve a context, build the prompt,
    and stream the model's answer, passing on only the non-empty delta contents.

    The collaborators the repository does not own (news search, HTTP, the text
    splitter, sentence-transformers, FAISS and the chat-completion stream) are
    the functions of an `Env`. The index, model and query-vector types are type
    parameters, so a model value can only come from `embed`. */
module Pipeline {
  import opened Seqs
  import opened Prompt
  import News
  import Chunking
  import Retrieval

  datatype Option<T> = None | Some(value: T)

  /** `chunk.choices[0].delta.content` of one streamed completion chunk. */
  type Delta = Option<string>

  /** The task `run_pipeline` uses when its caller gives none. */
  const DefaultTask: string := "Summarize this context"

  /** What `embed_documents` returns: the vector index and the embedding model. */
  datatype Embedded<I, M> = Embedded(index: I, model: M)

  datatype Env<!I, !M, !Q> = Env(
    googleNews: string -> seq<string>,                 // get_google_news: the `link` column
    fetch: (nat, string) -> News.FetchOutcome,         // requests.get + BeautifulSoup, per link
    split: Chunking.Splitter,                          // RecursiveCharacterTextSplitter.split_text
    embed: seq<string> -> Embedded<I, M>,              // embed_documents
    encode: (string, M) -> Q,                          // encode_query
    search: (I, Q, nat) -> Retrieval.SearchRows,       // index.search(query, k)
    generate: seq<Message> -> seq<Delta>               // get_model_response, delta contents
  )

  /** The search over the index built from `chunks` returns a first row whose
      positions are all chunk positions. */
  predicate SearchHits<I, M, Q>(env: Env<I, M, Q>, chunks: seq<string>, query: Q)
  {
    var rows := env.search(env.embed(chunks).index, query, Retrieval.DefaultK);
    |rows| > 0 && Retrieval.InRange(rows[0], |chunks|)
  }

  /** The search for `text`, encoded with the model that embedded `chunks`, in the
      index built from `chunks`, stays within those chunks. */
  predicate QueryHits<I, M, Q>(env: Env<I, M, Q>, chunks: seq<string>, text: string)
  {
    SearchHits(env, chunks, env.encode(text, env.embed(chunks).model))
  }

  /** Every search the pipeline can make in the index of a non-empty corpus stays
      within the chunks of that index. For an empty corpus FAISS pads the row
      with -1, and the run raises (see `RetrievedContext`). */
  ghost predicate SearchInRange<I, M, Q>(env: Env<I, M, Q>)
  {
    forall chunks: seq<string>, text: string :: chunks != [] ==> QueryHits(env, chunks, text)
  }

  /** The one collaborator call made at each stage, with its arguments. */
  datatype Call<I, M, Q> =
    | FetchNews(request: string)
    | DownloadNews(links: seq<string>)
    | ChunkDocuments(descriptions: seq<string>)
    | EmbedChunks(chunks: seq<string>, index: I, model: M)
    | EncodeQuery(query: string, model: M)
    | ExtractContext(index: I, queryEmbedding: Q, chunks: seq<string>)
    | BuildPrompt(context: string, task: string)
    | Generate(messages: seq<Message>)

  /** The text of a delta, "" for a missing one. */
  function ContentText(d: Delta): string
  {
    match d
    case Some(c) => c
    case None => ""
  }

  /** The whole text of a stream: every delta content in order, `None` read as "". */
  function StreamText(deltas: seq<Delta>): string
  {
    Flatten(seq(|deltas|, i requires 0 <= i < |deltas| => ContentText(deltas[i])))
  }

  /** The delta contents, in delivery order, with `None` and "" left out. */
  function Yielded(deltas: seq<Delta>): (r: seq<string>)
    ensures |r| <= |deltas|
    ensures forall j :: 0 <= j < |r| ==> r[j] != []
  {
    if deltas == [] then []
    else
      var init := Yielded(deltas[..|deltas| - 1]);
      match deltas[|deltas| - 1]
      case Some(c) => if c != [] then init + [c] else init
      case None => init
  }

  /** Filtering keeps the order across any split of the stream. */
  lemma {:induction false} YieldedAppend(a: seq<Delta>, b: seq<Delta>)
    ensures Yielded(a + b) == Yielded(a) + Yielded(b)
    decreases |b|
  {
    if b == [] {
      assert a + b == a;
    } else {
      assert (a + b)[..|a + b| - 1] == a + b[..|b| - 1];
      YieldedAppend(a, b[..|b| - 1]);
    }
  }

  /** Nothing of the text is lost or reordered: the yielded pieces spell out the
      same text as all delta contents, `None` read as "". */
  lemma {:induction false} YieldedKeepsText(deltas: seq<Delta>)
    ensures Flatten(Yielded(deltas)) == StreamText(deltas)
    decreases |deltas|
  {
    var texts := seq(|deltas|, i requires 0 <= i < |deltas| => ContentText(deltas[i]));
    if deltas != [] {
      var init := deltas[..|deltas| - 1];
      var c := ContentText(deltas[|deltas| - 1]);
      YieldedKeepsText(init);
      assert texts[..|texts| - 1] == seq(|init|, i requires 0 <= i < |init| => ContentText(init[i]));
      assert Flatten(texts) == Flatten(texts[..|texts| - 1]) + c;
      if deltas[|deltas| - 1].Some? && c != [] {
        var y := Yielded(init) + [c];
        assert y[..|y| - 1] == Yielded(init);
      }
    }
  }

  /** The `async for` over the completion stream with its `if content: yield content`. */
  method ForwardDeltas(deltas: seq<Delta>) returns (yielded: seq<string>)
    ensures yielded == Yielded(deltas)
  {
    yielded := [];
    for j := 0 to |deltas|
      invariant yielded == Yielded(deltas[..j])
    {
      assert deltas[..j + 1][..j] == deltas[..j];
      var content := deltas[j];
      if content.Some? && content.value != "" {
        yielded := yielded + [content.value];
      }
    }
    assert deltas[..|deltas|] == deltas;
  }

  /** The chunks `run_pipeline` builds for a request. */
  function Corpus<I, M, Q>(userRequest: string, env: Env<I, M, Q>): (r: seq<string>)
    ensures env.googleNews(userRequest) == [] ==> r == []
    ensures |r| == SumLengths(Chunking.PiecesPerDocument(env.split,
      News.Descriptions(News.TrimLinks(env.googleNews(userRequest)), env.fetch)))
  {
    var links := env.googleNews(userRequest);
    Chunking.ChunksOf(env.split, News.Descriptions(News.TrimLinks(links), env.fetch))
  }

  /** The context retrieved for a request: the query is encoded with the model
      that embedded this very corpus, and searched in the index built from it.
      `None` when the run raises instead: for an empty corpus the search row is
      FAISS's `-1` padding, and `all_chunks[-1]` on no chunks is an `IndexError`. */
  function RetrievedContext<I, M, Q>(userRequest: string, env: Env<I, M, Q>): (r: Option<string>)
    requires SearchInRange(env)
    ensures r.None? <==> Corpus(userRequest, env) == []
  {
    var chunks := Corpus(userRequest, env);
    if chunks == [] then None
    else
      var embedded := env.embed(chunks);
      var query := env.encode(userRequest, embedded.model);
      assert QueryHits(env, chunks, userRequest);
      Some(Retrieval.Context(chunks, env.search(embedded.index, query, Retrieval.DefaultK)[0]))
  }

  /** What `run_pipeline(user_request, task)` yields; `None` when it raises. */
  function PipelineOutput<I, M, Q>(userRequest: string, task: string, env: Env<I, M, Q>): Option<seq<string>>
    requires SearchInRange(env)
  {
    match RetrievedContext(userRequest, env)
    case None => None
    case Some(context) => Some(Yielded(env.generate(GetPrompt(context, task))))
  }

  /** A run raises exactly on an empty corpus; otherwise what it yields spells out
      the whole text the generation service streams for the prompt built from
      the retrieved context and the task. */
  lemma PipelineOutputSpellsStream<I, M, Q>(userRequest: string, task: string, env: Env<I, M, Q>)
    requires SearchInRange(env)
    ensures PipelineOutput(userRequest, task, env).None? <==> Corpus(userRequest, env) == []
    ensures Corpus(userRequest, env) != [] ==>
      Flatten(PipelineOutput(userRequest, task, env).value)
        == StreamText(env.generate(GetPrompt(RetrievedContext(userRequest, env).value, task)))
  {
    var context := RetrievedContext(userRequest, env);
    if context.Some? {
      YieldedKeepsText(env.generate(GetPrompt(context.value, task)));
    }
  }

  /** The retrieval stages of `run_pipeline`: fetch the links, download the
      descriptions into the news table, chunk them, embed the chunks, encode the
      request with the model returned together with the index, and extract the
      context of the search in that index. */
  method Retrieve<I, M, Q>(userRequest: string, env: Env<I, M, Q>)
    returns (links: seq<string>, descriptions: seq<string>, chunks: seq<string>,
             index: I, embedModel: M, queryEmbed: Q, context: Option<string>)
    requires SearchInRange(env)
    ensures links == env.googleNews(userRequest)
    ensures descriptions == News.Descriptions(News.TrimLinks(links), env.fetch)
    ensures chunks == Chunking.ChunksOf(env.split, descriptions)
    ensures env.embed(chunks) == Embedded(index, embedModel)
    ensures queryEmbed == env.encode(userRequest, embedModel)
    ensures context.None? <==> chunks == []
    ensures chunks != [] ==> SearchHits(env, chunks, queryEmbed)
    ensures chunks != [] ==>
      context == Some(Retrieval.Context(chunks, env.search(index, queryEmbed, Retrieval.DefaultK)[0]))
    ensures context == RetrievedContext(userRequest, env)
  {
    links := env.googleNews(userRequest);
    var data := new News.NewsFrame(links);
    data := News.DownloadLatestNews(data, env.fetch);
    descriptions := data.description;
    chunks := Chunking.ChunkDoc(data, env.split);
    var embedded := env.embed(chunks);
    index, embedModel := embedded.index, embedded.model;
    queryEmbed := env.encode(userRequest, embedModel);
    assert chunks == Corpus(userRequest, env);
    if chunks == [] {
      // `extract_documents` raises `IndexError` on FAISS's -1 padding
      context := None;
    } else {
      assert QueryHits(env, chunks, userRequest);
      var extracted := Retrieval.ExtractDocuments(index, queryEmbed, chunks, Retrieval.DefaultK, env.search);
      context := Some(extracted);
    }
  }

  /** `run_pipeline(user_request, task)`: the yielded pieces, and the calls made,
      in order. Each stage consumes what the stage before it produced, which
      fixes the order fetch, download, chunk, embed, encode, extract, prompt,
      generate; the query is encoded with the model returned together with the
      index; the search uses that index and the chunks of the same call; the
      prompt carries the context of that search. On an empty corpus the
      extraction raises: nothing is yielded (`None`) and the calls stop there. */
  method RunPipeline<I, M, Q>(userRequest: string, task: string, env: Env<I, M, Q>)
    returns (yielded: Option<seq<string>>, calls: seq<Call<I, M, Q>>)
    requires SearchInRange(env)
    ensures yielded == PipelineOutput(userRequest, task, env)
    ensures |calls| == if yielded.Some? then 8 else 6
    ensures calls[0] == FetchNews(userRequest)
    ensures calls[1] == DownloadNews(env.googleNews(userRequest))
    ensures calls[2] == ChunkDocuments(News.Descriptions(News.TrimLinks(calls[1].links), env.fetch))
    ensures calls[3].EmbedChunks?
    ensures calls[3].chunks == Chunking.ChunksOf(env.split, calls[2].descriptions)
    ensures env.embed(calls[3].chunks) == Embedded(calls[3].index, calls[3].model)
    ensures calls[4] == EncodeQuery(userRequest, calls[3].model)
    ensures calls[5] == ExtractContext(calls[3].index, env.encode(userRequest, calls[3].model), calls[3].chunks)
    ensures yielded.None? <==> calls[5].chunks == []
    ensures yielded.Some? ==> SearchHits(env, calls[5].chunks, calls[5].queryEmbedding)
    ensures yielded.Some? ==> calls[6] == BuildPrompt(Retrieval.Context(calls[5].chunks,
      env.search(calls[5].index, calls[5].queryEmbedding, Retrieval.DefaultK)[0]), task)
    ensures yielded.Some? ==> calls[7] == Generate(GetPrompt(calls[6].context, task))
    ensures yielded.Some? ==> yielded.value == Yielded(env.generate(calls[7].messages))
  {
    var links, descriptions, chunks, index, embedModel, queryEmbed, context := Retrieve(userRequest, env);
    var trace := [
      FetchNews(userRequest),
      DownloadNews(links),
      ChunkDocuments(descriptions),
      EmbedChunks(chunks, index, embedModel),
      EncodeQuery(userRequest, embedModel),
      ExtractContext(index, queryEmbed, chunks)
    ];
    if context.None? {
      yielded := None;
      calls := trace;
    } else {
      var messages := GetPrompt(context.value, task);
      var stream := env.generate(messages);
      var pieces := ForwardDeltas(stream);
      yielded := Some(pieces);
      assert yielded == PipelineOutput(userRequest, task, env);
      calls := trace + [BuildPrompt(context.value, task), Generate(messages)];
      assert calls[6] == BuildPrompt(context.value, task);
    }
  }
}
