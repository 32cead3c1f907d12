/**
 `ask_bot` of `utils/bot.py` in its streaming form: the missing-index short
 circuit, the lazily built module-wide chain, the projection of the chain's
 streamed chunks onto answer tokens, and the conversion of an exception into
 one trailing error token.

 The chain itself (LangChain, Cohere, FAISS) is opaque. What building it
 yields is a parameter (`BuildAttempt`), and so is what it streams for the
 question (`Upstream`): the chunks it produces in order, and the message of
 the exception it raises after them, if any.
 */
module Bot {
  import opened Optional

  /**
   A chain made by `create_rag_chain`, identified by the persisted index it
   was loaded from (the number of the index write that produced it).
   */
  datatype Chain = Chain(indexWrite: nat)

  /** One streamed chunk, or a whole response: a dictionary of strings. */
  type ChunkMap = map<string, string>

  /** Building the chain (lines 23-26): it either succeeds or raises with a message. */
  datatype BuildAttempt = BuildOk | BuildFailed(message: string)

  /** What the chain streams: its chunks in order, then possibly an exception. */
  datatype Upstream = Upstream(chunks: seq<ChunkMap>, failure: Option<string>)

  /** The tokens `ask_bot` yields, and the module's `RAG_CHAIN` afterwards. */
  datatype BotRun = BotRun(tokens: seq<string>, chain: Option<Chain>)

  /** A sequence of calls: the build outcome and the stream of each. */
  datatype Call = Call(build: BuildAttempt, upstream: Upstream)

  const IndexMissingMessage := "Vector store not found. Please upload documents first."
  const ErrorPrefix := "Error processing request: "
  const NoResponseMessage := "No response generated"

  /** The token a chunk contributes: its `answer`, else its `result`, else none. */
  function ChunkToken(chunk: ChunkMap): (r: Option<string>)
    ensures r.None? <==> "answer" !in chunk && "result" !in chunk
    ensures r.Some? ==> ("answer" in chunk && r.value == chunk["answer"]) || ("result" in chunk && r.value == chunk["result"])
    ensures "answer" in chunk ==> r == Some(chunk["answer"])
  {
    if "answer" in chunk then Some(chunk["answer"])
    else if "result" in chunk then Some(chunk["result"])
    else None
  }

  /** The tokens of a stream of chunks (lines 30-34). */
  function ProjectTokens(chunks: seq<ChunkMap>): (r: seq<string>)
    ensures |r| <= |chunks|
    ensures |r| == |chunks| <==> forall i :: 0 <= i < |chunks| ==> ChunkToken(chunks[i]).Some?
    ensures forall k :: 0 <= k < |r| ==> exists i :: 0 <= i < |chunks| && ChunkToken(chunks[i]) == Some(r[k])
  {
    if |chunks| == 0 then []
    else
      var rest := ProjectTokens(chunks[1..]);
      assert forall i :: 1 <= i < |chunks| ==> chunks[i] == chunks[1..][i - 1];
      match ChunkToken(chunks[0])
      case None => rest
      case Some(t) => [t] + rest
  }

  /** Chunk order is token order: projecting a concatenation concatenates the tokens. */
  lemma {:induction false} ProjectTokensAppend(a: seq<ChunkMap>, b: seq<ChunkMap>)
    ensures ProjectTokens(a + b) == ProjectTokens(a) + ProjectTokens(b)
    decreases |a|
  {
    if |a| == 0 {
      assert a + b == b;
    } else {
      assert (a + b)[0] == a[0];
      assert (a + b)[1..] == a[1..] + b;
      ProjectTokensAppend(a[1..], b);
    }
  }

  /** The tokens of one chunk: its answer, else its result, else nothing. */
  lemma ProjectTokensSingle(chunk: ChunkMap)
    ensures "answer" in chunk ==> ProjectTokens([chunk]) == [chunk["answer"]]
    ensures "answer" !in chunk && "result" in chunk ==> ProjectTokens([chunk]) == [chunk["result"]]
    ensures "answer" !in chunk && "result" !in chunk ==> ProjectTokens([chunk]) == []
  {
    assert [chunk][1..] == [];
  }

  /** The error token for an exception with the given message (line 40). */
  function ErrorToken(message: string): (r: string)
    ensures |r| == |ErrorPrefix| + |message|
    ensures r[..|ErrorPrefix|] == ErrorPrefix && r[|ErrorPrefix|..] == message
  {
    ErrorPrefix + message
  }

  /** The tokens of the streaming loop: the projected chunks, then the error token if it raised. */
  function StreamTokens(upstream: Upstream): (r: seq<string>)
    ensures |r| == |ProjectTokens(upstream.chunks)| + (if upstream.failure.Some? then 1 else 0)
    ensures r[..|ProjectTokens(upstream.chunks)|] == ProjectTokens(upstream.chunks)
    ensures upstream.failure.Some? ==> r[|r| - 1] == ErrorToken(upstream.failure.value)
  {
    var tokens := ProjectTokens(upstream.chunks);
    match upstream.failure
    case None => tokens
    case Some(m) => tokens + [ErrorToken(m)]
  }

  /**
   `ask_bot(question, stream=True)`: the yielded tokens and the new
   `RAG_CHAIN`, given whether (and which) index is on disk, the current
   `RAG_CHAIN`, what building the chain would give, and what the chain streams.
   */
  function AskBotStream(index: Option<nat>, chain: Option<Chain>, build: BuildAttempt, upstream: Upstream): (r: BotRun)
    // no index: one fixed message, and no chain is built
    ensures index.None? ==> r.tokens == [IndexMissingMessage] && r.chain == chain
    // an existing chain is reused unchanged
    ensures chain.Some? ==> r.chain == chain
    // otherwise the chain is built from the index on disk, unless building raised
    ensures index.Some? && chain.None? ==>
      r.chain == (if build.BuildOk? then Some(Chain(index.value)) else None)
    // a failed build yields exactly one error token
    ensures index.Some? && chain.None? && build.BuildFailed? ==>
      r.tokens == [ErrorToken(build.message)]
    // with a chain, the tokens are the stream's, with one error token after them if it raised
    ensures index.Some? && r.chain.Some? ==> r.tokens == StreamTokens(upstream)
    ensures |r.tokens| <= |upstream.chunks| + 1
  {
    if index.None? then BotRun([IndexMissingMessage], chain)
    else if chain.Some? then BotRun(StreamTokens(upstream), chain)
    else match build
      case BuildFailed(m) => BotRun([ErrorToken(m)], None)
      case BuildOk => BotRun(StreamTokens(upstream), Some(Chain(index.value)))
  }

  /** `RAG_CHAIN` after a sequence of streaming calls against the same index. */
  function ChainAfter(index: Option<nat>, chain: Option<Chain>, calls: seq<Call>): Option<Chain>
    decreases |calls|
  {
    if |calls| == 0 then chain
    else ChainAfter(index, AskBotStream(index, chain, calls[0].build, calls[0].upstream).chain, calls[1..])
  }

  /**
   The chain is built at most once: a chain that is set stays, and an unset
   one ends up built from the index exactly when some call's build succeeded.
   */
  lemma {:induction false} ChainBuiltOnce(index: Option<nat>, chain: Option<Chain>, calls: seq<Call>)
    ensures chain.Some? || index.None? ==> ChainAfter(index, chain, calls) == chain
    ensures chain.None? && index.Some? ==>
      (ChainAfter(index, chain, calls) == Some(Chain(index.value)) <==>
        exists i :: 0 <= i < |calls| && calls[i].build.BuildOk?)
    ensures chain.None? && index.Some? ==>
      (ChainAfter(index, chain, calls).None? <==>
        forall i :: 0 <= i < |calls| ==> calls[i].build.BuildFailed?)
    decreases |calls|
  {
    if |calls| > 0 {
      var next := AskBotStream(index, chain, calls[0].build, calls[0].upstream).chain;
      ChainBuiltOnce(index, next, calls[1..]);
      assert forall i :: 1 <= i < |calls| ==> calls[i] == calls[1..][i - 1];
      if chain.None? && index.Some? && calls[0].build.BuildFailed? {
        assert next.None?;
      }
    }
  }

  /** The non-streaming answer (line 37): `answer`, else `result`, else a fixed message. */
  function SelectAnswer(response: ChunkMap): (r: string)
    ensures r == ChunkToken(response).GetOr(NoResponseMessage)
  {
    if "answer" in response then response["answer"]
    else if "result" in response then response["result"]
    else NoResponseMessage
  }

  /**
   The non-streaming answer follows the same precedence as the streaming
   projection, with a fixed message where a chunk would be dropped.
   */
  lemma SelectAnswerMatchesStream(response: ChunkMap)
    ensures ProjectTokens([response]) == [] ==> SelectAnswer(response) == NoResponseMessage
    ensures ProjectTokens([response]) != [] ==> ProjectTokens([response]) == [SelectAnswer(response)]
  {
    ProjectTokensSingle(response);
  }
}
