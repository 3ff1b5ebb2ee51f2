/** The question handler `ask_question` of backend/main.py: embed the
    question, fetch the nearest chunks from the vector store, splice them into
    a fixed prompt and ask the chat model. The provider, the store query and
    the chat model are parameters; the run records what was asked of each. */
module Ask {
  import opened Results
  import opened Strings
  import opened Http
  import opened Embedding

  /** The store's similarity query: the chunk texts of the nearest records,
      best match first (the first row of `results["documents"]`), or the
      message of the exception it raised. */
  type Search = Vector -> Result<seq<string>, string>

  /** The chat model called with a system message and a user message: the
      answer text, already stripped, or the message of the exception. */
  type Completion = (string, string) -> Result<string, string>

  /** The JSON body of a successful answer. */
  datatype Reply = Reply(answer: string, evidence: seq<string>, llmContext: string, message: string)

  /** The response, the batches sent to the embedding provider, the vectors
      the store was queried with, and the user messages sent to the model. */
  datatype AskRun = AskRun(
    response: Result<Reply, HttpError>,
    embedCalls: seq<seq<string>>,
    searches: seq<Vector>,
    prompts: seq<string>)

  const Separator: string := "\n---\n"
  const SystemMessage: string := "You are an expert RAG assistant."
  const Instructions: string :=
    "You are an expert assistant. Given the following context chunks (from user files) and a question, "
    + "give a concise answer based strictly on the context. Cite text by quoting or listing sources if helpful.\n\n"
  const ContextHeader: string := "Context Chunks:\n"
  const QuestionHeader: string := "\n\nQuestion:\n"
  const AnswerCue: string := "\n\nAnswer:"
  const DoneMessage: string := "Answer generated using retrieved context."
  /** `str()` of the IndexError raised by `[0]` on an empty list. */
  const IndexErrorMessage: string := "list index out of range"

  /** The retrieved chunks joined with the separator. */
  function Context(chunks: seq<string>): string
  {
    Join(Separator, chunks)
  }

  /** The user message sent to the chat model. */
  function Prompt(context: string, query: string): string
  {
    Instructions + ContextHeader + context + QuestionHeader + query + AnswerCue
  }

  /** The prompt is the fixed instructions, then the context header and the
      context, then the question header and the question verbatim, then the
      answer cue, each at a position fixed by the lengths before it; the
      context in turn holds the chunks in store order, separator between. */
  lemma PromptLayout(chunks: seq<string>, query: string)
    ensures var c := Context(chunks);
            var p := Prompt(c, query);
            var h := |Instructions| + |ContextHeader|;
            var q := h + |c| + |QuestionHeader|;
            && |p| == q + |query| + |AnswerCue|
            && p[..|Instructions|] == Instructions
            && p[|Instructions|..h] == ContextHeader
            && p[h..h + |c|] == c
            && p[h + |c|..q] == QuestionHeader
            && p[q..q + |query|] == query
            && p[q + |query|..] == AnswerCue
    ensures |chunks| == 0 ==> Context(chunks) == ""
    ensures forall k :: 0 <= k < |chunks| ==>
              && Offset(Separator, chunks, k) + |chunks[k]| <= |Context(chunks)|
              && Context(chunks)[Offset(Separator, chunks, k)..Offset(Separator, chunks, k) + |chunks[k]|] == chunks[k]
    ensures forall k :: 0 <= k < |chunks| - 1 ==>
              && Offset(Separator, chunks, k) + |chunks[k]| + |Separator| <= |Context(chunks)|
              && Context(chunks)[Offset(Separator, chunks, k) + |chunks[k]|..Offset(Separator, chunks, k) + |chunks[k]| + |Separator|] == Separator
  {
    JoinLayout(Separator, chunks);
    var c := Context(chunks);
    var p := Prompt(c, query);
    assert p == Instructions + ContextHeader + c + QuestionHeader + query + AnswerCue;
  }

  /** `ask_question`. */
  function Ask(
    query: string,
    hasKey: bool,
    provider: Provider,
    search: Search,
    complete: Completion): (run: AskRun)
    ensures !hasKey ==> run == AskRun(Err(HttpError(500, KeyNotSetDetail)), [], [], [])
    ensures |run.searches| <= 1 && |run.prompts| <= 1
    ensures run.response.Err? ==> run.response.error.status == 500
    ensures run.searches != [] ==> run.embedCalls == [[query]]
    ensures run.response.Ok? ==>
              && |run.searches| == 1
              && search(run.searches[0]).Ok?
              && run.response.value.evidence == search(run.searches[0]).value
              && run.response.value.llmContext == Prompt(Context(run.response.value.evidence), query)
              && run.prompts == [run.response.value.llmContext]
              && complete(SystemMessage, run.prompts[0]) == Ok(run.response.value.answer)
              && run.response.value.message == DoneMessage
  {
    if !hasKey then AskRun(Err(HttpError(500, KeyNotSetDetail)), [], [], [])
    else
      var embedded := EmbedChunks(hasKey, provider, [query]);
      match embedded.result
      case Err(e) =>
        AskRun(Err(HttpError(500, "Embedding failed: " + e.Message())), embedded.calls, [], [])
      case Ok(vectors) =>
        if |vectors| == 0 then
          AskRun(Err(HttpError(500, "Embedding failed: " + IndexErrorMessage)), embedded.calls, [], [])
        else
          var queryVector := vectors[0];
          OneBatch([query]);
          match search(queryVector)
          case Err(cause) =>
            AskRun(Err(HttpError(500, "Vector DB query failed: " + cause)), embedded.calls, [queryVector], [])
          case Ok(topChunks) =>
            var prompt := Prompt(Context(topChunks), query);
            match complete(SystemMessage, prompt)
            case Err(cause) =>
              AskRun(Err(HttpError(500, "LLM call failed: " + cause)), embedded.calls, [queryVector], [prompt])
            case Ok(answer) =>
              AskRun(Ok(Reply(answer, topChunks, prompt, DoneMessage)), embedded.calls, [queryVector], [prompt])
  }

  /** When the question's embedding, the store query and the chat call all
      succeed, the reply is the model's answer with the retrieved chunks as
      evidence and the prompt built from them. */
  lemma AskSucceeds(
    query: string, provider: Provider, search: Search, complete: Completion,
    vectors: seq<Vector>, top: seq<string>, answer: string)
    requires EmbedChunks(true, provider, [query]).result == Ok(vectors)
    requires |vectors| > 0
    requires search(vectors[0]) == Ok(top)
    requires complete(SystemMessage, Prompt(Context(top), query)) == Ok(answer)
    ensures var run := Ask(query, true, provider, search, complete);
            && run.response == Ok(Reply(answer, top, Prompt(Context(top), query), DoneMessage))
            && run.embedCalls == [[query]]
            && run.searches == [vectors[0]]
            && run.prompts == [Prompt(Context(top), query)]
  {
  }

  /** Each failing step is a 500 whose detail names the step and carries the
      cause, and nothing after the failing step is called: an embedding error
      or an empty embedding list stops before the store query, a store error
      stops before the chat call. */
  lemma AskFailures(query: string, provider: Provider, search: Search, complete: Completion)
    ensures var run := Ask(query, true, provider, search, complete);
            var embedded := EmbedChunks(true, provider, [query]).result;
            && (embedded.Err? ==>
                  && run.response == Err(HttpError(500, "Embedding failed: " + embedded.error.Message()))
                  && run.searches == [] && run.prompts == [])
            && (embedded == Ok([]) ==>
                  && run.response == Err(HttpError(500, "Embedding failed: " + IndexErrorMessage))
                  && run.searches == [] && run.prompts == [])
            && (embedded.Ok? && |embedded.value| > 0 && search(embedded.value[0]).Err? ==>
                  && run.response == Err(HttpError(500, "Vector DB query failed: " + search(embedded.value[0]).error))
                  && run.searches == [embedded.value[0]] && run.prompts == [])
            && (embedded.Ok? && |embedded.value| > 0 && search(embedded.value[0]).Ok? ==>
                  var prompt := Prompt(Context(search(embedded.value[0]).value), query);
                  complete(SystemMessage, prompt).Err? ==>
                    run.response == Err(HttpError(500, "LLM call failed: " + complete(SystemMessage, prompt).error)))
  {
  }

  /** The question goes to the provider as a one-element batch, whatever the
      provider answers. With a provider that answers every batch with a
      shuffle of one indexed embedding per input, the store is queried with the
      question's own embedding exactly when the provider call succeeds, and an
      empty retrieval still yields an answer whose prompt has an empty
      context. */
  lemma AskRetrieval(
    query: string, provider: Provider, truth: string -> Vector, search: Search, complete: Completion)
    ensures var run := Ask(query, true, provider, search, complete);
            && run.embedCalls == [[query]]
            && (AnswersInAnyOrder(provider, truth) ==>
                  && (provider([query]).Ok? <==> run.searches == [truth(query)])
                  && (provider([query]).Ok? && search(truth(query)) == Ok([])
                      && complete(SystemMessage, Prompt("", query)).Ok? ==>
                        run.response == Ok(Reply(complete(SystemMessage, Prompt("", query)).value, [],
                                                 Prompt("", query), DoneMessage))))
  {
    if AnswersInAnyOrder(provider, truth) {
      EmbedInOrder(provider, truth, [query]);
    }
    OneBatch([query]);
  }
}
