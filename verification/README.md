# RAG demo backend: chunking, batched embedding, upload and ask pipelines in Dafny

This project models the core of a small retrieval-augmented-generation
backend. Uploaded PDF or text files are parsed and cut into overlapping
character windows ("chunks"). The chunks are embedded through a remote
provider in batches of 20 and written to a vector store with ids and
metadata. A question is embedded the same way. The nearest stored chunks are
spliced into a fixed prompt, and a chat model answers from them.

The model is functional. Remote collaborators are function-typed parameters:
- the embedding provider: `Embedding.Provider`, one batch in, a possibly shuffled indexed response or an error out;
- the store's bulk insert: `Upload.StoreAdd`;
- the store's similarity query: `Ask.Search`;
- the chat model: `Ask.Completion`;
- the PDF/TXT extractors: `Upload.Extractor`.

The generated `doc_id` and the presence of the API key are plain parameters.
Each handler returns a run record that lists what it asked of the provider,
the parser and the store. That makes "no store write" and "no provider call"
statable about pure functions. HTTP errors are values (`Http.HttpError`), and
Python exceptions inside the pipeline are `Results.Result` errors.

Modules, one per file:
- `Windows` (windows.dfy): the windowing shape `xs[i:i+width] for i in range(0, len(xs), step)`. Both the chunker and the 20-item batcher use it. It proves the window count, the position of each window, window lengths, where the last window ends, overlap, and reconstruction.
- `Chunker` (chunker.dfy): `chunk_text`.
- `Strings` (strings.dfy): `str.endswith`, `str()` of a non-negative int with its inverse, and `str.join` with its layout.
- `Embedding` (embedding.dfy): `embed_chunks_openai`. It covers batching, the stable sort by provider index, and concatenation.
- `Http`, `Upload`, `Ask`: the two request handlers of backend/main.py.
- `Results`: `Option` and `Result`.

## Model

| member | source | states |
|---|---|---|
| Chunker.Stride | backend/utils/pdf_parser.py:33 | `int(m*0.75)` is 3m/4 truncated toward zero; it is at least 1 exactly when m >= 2, 0 exactly for -1 <= m <= 1, and for m >= 2 lies strictly below m with m <= 2*stride |
| Chunker.ChunkText | backend/utils/pdf_parser.py:26-38 | the range loop with slicing and the `if chunk` filter returns exactly the reference windows `Chunks(text, m)` for m >= 2; it fails (ValueError of a zero `range` step) exactly when -1 <= m <= 1; it gives the empty list for m <= -2 |
| Chunker.ChunkCount | backend/utils/pdf_parser.py:34-37 | the number of chunks is ceil(len(text) / stride); it is zero exactly for the empty text |
| Chunker.ChunkIsSlice | backend/utils/pdf_parser.py:34-35 | chunk k is `text[k*stride : min(k*stride + m, len(text))]`, a contiguous substring whose offset k*stride lies inside the text |
| Chunker.ChunkLengths | backend/utils/pdf_parser.py:34-37 | every chunk has between 1 and m characters, so the emptiness filter drops nothing; the last chunk ends exactly at the end of the text |
| Chunker.ChunksReconstruct | backend/utils/pdf_parser.py:33-35 | the first `stride` characters of every chunk but the last, followed by the whole last chunk, give back the text exactly |
| Chunker.ChunksOverlap | backend/utils/pdf_parser.py:33-35 | chunk k past its first `stride` characters is a prefix of chunk k+1; the overlap is min(m - stride, len(text) - (k+1)*stride) characters |
| Chunker.ShortTextChunks | backend/utils/pdf_parser.py:33-35 | a non-empty text of at most `stride` characters is its own single chunk; a text longer than `stride` but at most m characters gives two chunks, the whole text and its tail from `stride` |
| Chunker.DefaultChunking | backend/utils/pdf_parser.py:26-38 | with the default 500 the stride is 375; 400 characters give chunks at offsets 0 and 375; 1200 characters give four chunks `[0:500]`, `[375:875]`, `[750:1200]`, `[1125:1200]` |
| Embedding.BatchShape | backend/main.py:54-58 | the inputs go out as consecutive slices `chunks[20k : 20k+20]` of 1 to 20 items; there are ceil(n/20) of them (21 inputs: batches of 20 and 1), and they concatenate back to the input |
| Embedding.OneBatch | backend/main.py:54-58 | up to 20 inputs, the single question included, go out in one request holding all of them |
| Embedding.SortByIndex | backend/main.py:60 | `sorted(response.data, key=index)` returns the same entries, ordered by provider index |
| Embedding.SortRestoresOrder | backend/main.py:60-61 | re-sorting any permutation of one indexed result per input puts entry j at position j, so the extracted embeddings are the per-input results in request order |
| Embedding.EmbedBatches | backend/main.py:54-62 | one provider call per batch, in order, stopping at the first failure; success happens exactly when every batch call succeeds, and then every batch was sent; a failure carries the failing call's message, and every call before it succeeded |
| Embedding.EmbedChunks | backend/main.py:46-62 | with no API key the result is the key error and no provider call is made; otherwise the calls are a prefix of the batches, and success means all ceil(n/20) batches were sent and every call succeeded |
| Embedding.EmbedInOrder | backend/main.py:54-62 | if the provider answers each batch with any shuffle of one indexed embedding per input, a successful run returns one embedding per input, the embedding of input i at position i |
| Strings.ParseNatToString | backend/main.py:104 | `str(i)` of a chunk position reads back as i |
| Strings.NatToStringInjective | backend/main.py:104 | distinct chunk positions render as distinct decimal strings |
| Strings.JoinLayout | backend/main.py:155 | `sep.join(parts)` is empty for no parts; otherwise it is the parts in order, part k at the summed length of earlier parts and separators, the separator right after every part but the last, and nothing else |
| Upload.ChunkIdUnique | backend/main.py:95-104 | `doc_id + "_chunk_" + str(i)` ids coincide exactly when the document and the position coincide, for document ids of any length, since the last `_` marks where the decimal position starts |
| Upload.Preview | backend/main.py:112 | the preview has min(3, n) entries and is the leading part of the chunk list |
| Upload.Upload | backend/main.py:64-119 | an unsupported name is a 400 before the key check, parsing, embedding or storing; a missing key is a 500 before parsing; the PDF parser runs exactly for accepted `.pdf` names and the text parser for the other accepted names; the report's filetype follows the name; there is at most one store write, and a success made exactly one |
| Upload.UploadFailures | backend/main.py:81-111 | a parser error is a 400 carrying its message, with no embedding call and no write; an empty text is a 400 "No text found to index." with no embedding call and no write; for a non-empty text the provider is called, and no write happens exactly when embedding fails, which is a 500 carrying the failure message |
| Upload.UploadStores | backend/main.py:98-119 | for an accepted name, a parsed non-empty text and a successful embedding of all its chunks, the handler sends every batch, issues exactly one write holding the chunks, their ids, metadata and embeddings, and succeeds exactly when the store accepts that write: then the report with filename, filetype, chunk count, doc_id and preview, otherwise the framework's 500 "Internal Server Error" |
| Upload.UploadSuccess | backend/main.py:104-119 | a successful upload wrote one request whose documents are the chunks; each chunk has id `doc_id_chunk_i` and metadata {filename, doc_id, chunk_id: i}; the ids are pairwise distinct; the embeddings, for a provider answering in any order, are per chunk in order; the report has filename, filetype, num_chunks = n, doc_id and the first min(3, n) chunks |
| Ask.PromptLayout | backend/main.py:155-160 | the prompt is the fixed instructions, "Context Chunks:\n", the context, "\n\nQuestion:\n", the question verbatim and "\n\nAnswer:", each at its computed position; the context is the retrieved chunks in store order with "\n---\n" between them, and is empty for no chunks |
| Ask.Ask | backend/main.py:121-182 | with no key it is a 500 before any call; the store is queried at most once, and only after the question went out as the single batch `[query]`; every failure is a 500; a success returns the store's chunks as evidence, and the exact prompt built from them as `llm_context` and as the one user message; the answer is what the model returned for that prompt with the fixed system message |
| Ask.AskSucceeds | backend/main.py:135-182 | when the question embeds to a non-empty list, the store query on its first vector returns some chunks, and the model answers the prompt built from those chunks, the reply is that answer, those chunks as evidence, that prompt as `llm_context` and the fixed done message; the provider saw `[query]`, the store that vector, the model that prompt |
| Ask.AskFailures | backend/main.py:135-175 | an embedding error is a 500 "Embedding failed: " plus its message, an empty embedding list a 500 "Embedding failed: list index out of range", both before any store query; a store error is a 500 "Vector DB query failed: " plus its message before any chat call; a chat error is a 500 "LLM call failed: " plus its message |
| Ask.AskRetrieval | backend/main.py:136-160 | for any provider the question is embedded as the one-element batch `[query]`; for a provider that answers every batch with a shuffle of one indexed embedding per input, the store is queried with the question's own embedding exactly when the provider call succeeds, and an empty retrieval still answers, with empty evidence and an empty context in the prompt |

## Left out

- PDF and text extraction (`extract_text_from_pdf`, `extract_text_from_txt`) are PyPDF2 and UTF-8 decoding. Each is modelled as an `Extractor` result: a string or an error message.
- The OpenAI embedding and chat calls are remote services. Their model names, `temperature=0.2`, `max_tokens=400` and the `.strip()` of the answer are left out. `Completion` is taken to return the already-stripped answer.
- ChromaDB's `get_or_create_collection`, `add` and `query` are remote. Cosine ranking and `n_results=5` are floating-point behaviour inside the store, so `Search` is any function from a vector to a list of chunk texts, and the model does not bound that list by 5.
- `collection.add` is not wrapped in `try` in the source. An exception there reaches the web framework, which is modelled as its default 500 "Internal Server Error". The attempted write is still recorded.
- FastAPI routing, CORS, form and file plumbing, and `uuid.uuid4()` are left out. `doc_id` is a parameter, and the key's presence is a boolean.
- `int(max_chunk_len * 0.75)` is computed as integers. 0.75 is exact in binary and 3*max_chunk_len fits a double's 53-bit significand when |max_chunk_len| < 2^51, so the two agree there; the rounding of larger float products is not modelled.
- Concurrency on the shared store is left out. The code does no locking, so isolation is the store's business.
- The two inspection scripts only print stored data.
- Embedding.SortByIndex: its contract does not state the stability of Python's `sorted`. The body keeps equal indices in their original order, but no result depends on it when each index occurs once.
- Embedding.EmbedInOrder: the in-order result is stated only for a provider that answers every batch with a permutation of one indexed embedding per input. A malformed response is not an error in the model; Python would fail later or store mismatched data.
- Upload.UploadSuccess: the embeddings are stated per chunk only under the same provider assumption as `Embedding.EmbedInOrder`.
- Ask.AskRetrieval: that the store is queried with the question's own embedding is stated only under the same provider assumption. A provider that succeeds with an empty response takes the IndexError exit instead (`Ask.AskFailures`).

Two consequences of the code are worth stating, because a reader might expect otherwise:
- A text no longer than `max_chunk_len` is not always a single chunk. When it is longer than the stride it gives two (400 characters at the default: offsets 0 and 375).
- 1200 characters at the default give 4 chunks of 500, 500, 450 and 75 characters, that is ceil(1200/375), not 3.

The chunk position is stored under the metadata key `chunk_id`, which is what `Upload.Metadata` holds.
