/** The upload handler `upload_document` of backend/main.py: validate the file
    name, check the credential, parse, chunk, embed, write every chunk to the
    vector store in one bulk call, and report. The parser, the embedding
    provider, the store and the uuid are parameters; what the handler asks of
    them is recorded in the run so that "nothing was written" can be stated. */
module Upload {
  import opened Results
  import opened Strings
  import opened Windows
  import opened Http
  import opened Embedding
  import Chunker

  datatype FileType = Pdf | Txt
  {
    /** The `filetype` field of the report. */
    function Name(): string
    {
      match this
      case Pdf => "pdf"
      case Txt => "txt"
    }
  }

  /** Only names ending in `.pdf` or `.txt` are accepted; the test is
      case-sensitive. */
  predicate Supported(filename: string)
  {
    EndsWith(filename, ".pdf") || EndsWith(filename, ".txt")
  }

  /** The parser used for an accepted name: PDF for `.pdf`, text otherwise. */
  function FileTypeOf(filename: string): FileType
  {
    if EndsWith(filename, ".pdf") then Pdf else Txt
  }

  /** The metadata stored with a chunk; the chunk position is under `chunk_id`. */
  datatype Metadata = Metadata(filename: string, docId: string, chunkId: nat)

  /** The arguments of the one `collection.add` call: parallel sequences. */
  datatype AddRequest = AddRequest(
    ids: seq<string>,
    embeddings: seq<Vector>,
    documents: seq<string>,
    metadatas: seq<Metadata>)

  /** The JSON body of a successful upload. */
  datatype Report = Report(
    filename: string,
    filetype: string,
    numChunks: nat,
    docId: string,
    chunkPreview: seq<string>)

  /** The response, the parser that was run (if any), the batches sent to the
      embedding provider, and the bulk writes issued to the store. */
  datatype UploadRun = UploadRun(
    response: Result<Report, HttpError>,
    parsedAs: Option<FileType>,
    embedCalls: seq<seq<string>>,
    writes: seq<AddRequest>)

  /** The extractor run on the uploaded bytes: the text, or the message of the
      exception it raised. */
  type Extractor = FileType -> Result<string, string>

  /** The store's bulk insert: true when `collection.add` returns normally. */
  type StoreAdd = AddRequest -> bool

  const UnsupportedDetail: string := "Only PDF and TXT files are supported."
  const NoTextDetail: string := "No text found to index."

  /** The store id of chunk i of a document. */
  function ChunkId(docId: string, i: nat): string
  {
    docId + "_chunk_" + NatToString(i)
  }

  /** Two chunk ids coincide only for the same document and the same chunk
      position: the `_` before the position marks where the decimal digits
      start, so the id determines both parts. In particular the ids of one
      upload are pairwise distinct. */
  lemma ChunkIdUnique(d1: string, i: nat, d2: string, j: nat)
    ensures ChunkId(d1, i) == ChunkId(d2, j) <==> d1 == d2 && i == j
  {
    if ChunkId(d1, i) == ChunkId(d2, j) {
      var s := ChunkId(d1, i);
      var p1, p2 := d1 + "_chunk_", d2 + "_chunk_";
      var a, b := NatToString(i), NatToString(j);
      assert s == p1 + a && s == p2 + b;
      assert p1[|p1| - 1] == '_' && p2[|p2| - 1] == '_';
      TrailingDigitsAfterMark(p1, a);
      TrailingDigitsAfterMark(p2, b);
      assert a == s[|p1|..] == s[|p2|..] == b;
      NatToStringInjective(i, j);
      assert d1 == p1[..|d1|] == s[..|d1|] == p2[..|d2|] == d2;
    }
  }

  function StoreRequest(filename: string, docId: string, chunks: seq<string>, embeddings: seq<Vector>): AddRequest
  {
    AddRequest(
      seq(|chunks|, i requires 0 <= i < |chunks| => ChunkId(docId, i)),
      embeddings,
      chunks,
      seq(|chunks|, i requires 0 <= i < |chunks| => Metadata(filename, docId, i)))
  }

  /** `chunks[:3] if len(chunks) > 3 else chunks`: the first three chunks, or
      all of them when there are fewer. */
  function Preview(chunks: seq<string>): (p: seq<string>)
    ensures |p| == Min(3, |chunks|)
    ensures p == chunks[..|p|]
  {
    if |chunks| > 3 then chunks[..3] else chunks
  }

  /** `upload_document`. The checks run in a fixed order: file name, credential,
      parsing, chunking, embedding, and only then the single store write. */
  function Upload(
    filename: string,
    hasKey: bool,
    extract: Extractor,
    docId: string,
    provider: Provider,
    add: StoreAdd): (run: UploadRun)
    ensures !Supported(filename) ==>
              run == UploadRun(Err(HttpError(400, UnsupportedDetail)), None, [], [])
    ensures Supported(filename) && !hasKey ==>
              run == UploadRun(Err(HttpError(500, KeyNotSetDetail)), None, [], [])
    ensures run.parsedAs.Some? ==> Supported(filename) && hasKey
    ensures run.parsedAs == Some(Pdf) <==> Supported(filename) && hasKey && EndsWith(filename, ".pdf")
    ensures run.parsedAs == Some(Txt) <==> Supported(filename) && hasKey && !EndsWith(filename, ".pdf")
    ensures run.response.Ok? ==> run.response.value.filetype == FileTypeOf(filename).Name()
    ensures |run.writes| <= 1
    ensures run.embedCalls != [] ==> run.parsedAs.Some?
    ensures run.response.Ok? ==> |run.writes| == 1
  {
    if !Supported(filename) then
      UploadRun(Err(HttpError(400, UnsupportedDetail)), None, [], [])
    else if !hasKey then
      UploadRun(Err(HttpError(500, KeyNotSetDetail)), None, [], [])
    else
      var filetype := FileTypeOf(filename);
      match extract(filetype)
      case Err(cause) =>
        UploadRun(Err(HttpError(400, "File parsing failed: " + cause)), Some(filetype), [], [])
      case Ok(text) =>
        var chunks := Chunker.Chunks(text, Chunker.DefaultMaxLen);
        if |chunks| == 0 then
          UploadRun(Err(HttpError(400, NoTextDetail)), Some(filetype), [], [])
        else
          var embedded := EmbedChunks(hasKey, provider, chunks);
          match embedded.result
          case Err(e) =>
            UploadRun(Err(HttpError(500, "Embedding failed: " + e.Message())), Some(filetype), embedded.calls, [])
          case Ok(embeddings) =>
            var request := StoreRequest(filename, docId, chunks, embeddings);
            var report := Report(filename, filetype.Name(), |chunks|, docId, Preview(chunks));
            var response := if add(request) then Ok(report) else Err(HttpError(500, InternalErrorDetail));
            UploadRun(response, Some(filetype), embedded.calls, [request])
  }

  /** The failure exits after parsing: a parser error is a 400 carrying its
      message; an empty text is a 400 with no embedding call and no write; an
      embedding failure is a 500 with no write. */
  lemma UploadFailures(
    filename: string, extract: Extractor, docId: string, provider: Provider, add: StoreAdd)
    requires Supported(filename)
    ensures var run := Upload(filename, true, extract, docId, provider, add);
            var parsed := extract(FileTypeOf(filename));
            && (parsed.Err? ==>
                  run == UploadRun(Err(HttpError(400, "File parsing failed: " + parsed.error)),
                                   Some(FileTypeOf(filename)), [], []))
            && (parsed == Ok("") ==>
                  run == UploadRun(Err(HttpError(400, NoTextDetail)), Some(FileTypeOf(filename)), [], []))
            && (parsed.Ok? && parsed.value != "" ==>
                  var chunks := Chunker.Chunks(parsed.value, Chunker.DefaultMaxLen);
                  && run.embedCalls <= Batches(chunks)
                  && run.embedCalls != []
                  && (run.writes == [] <==> EmbedChunks(true, provider, chunks).result.Err?)
                  && (EmbedChunks(true, provider, chunks).result.Err? ==>
                        run.response == Err(HttpError(500, "Embedding failed: "
                                              + EmbedChunks(true, provider, chunks).result.error.Message()))))
  {
  }

  /** Once parsing gave a non-empty text and every batch of its chunks was
      embedded, exactly one bulk write of the chunks with their ids, metadata
      and embeddings is issued, and the outcome is decided by that write
      alone: the report when the store accepts it, the framework's 500
      otherwise. */
  lemma UploadStores(
    filename: string, extract: Extractor, text: string, docId: string, provider: Provider,
    add: StoreAdd, embeddings: seq<Vector>)
    requires Supported(filename)
    requires extract(FileTypeOf(filename)) == Ok(text)
    requires text != ""
    requires EmbedChunks(true, provider, Chunker.Chunks(text, Chunker.DefaultMaxLen)).result == Ok(embeddings)
    ensures var run := Upload(filename, true, extract, docId, provider, add);
            var chunks := Chunker.Chunks(text, Chunker.DefaultMaxLen);
            var req := StoreRequest(filename, docId, chunks, embeddings);
            && run.parsedAs == Some(FileTypeOf(filename))
            && run.embedCalls == Batches(chunks)
            && run.writes == [req]
            && (run.response.Ok? <==> add(req))
            && (add(req) ==>
                  run.response == Ok(Report(filename, FileTypeOf(filename).Name(), |chunks|, docId, Preview(chunks))))
            && (!add(req) ==> run.response == Err(HttpError(500, InternalErrorDetail)))
  {
  }

  /** A successful upload wrote one request holding, for every chunk i of the
      text, id `<doc_id>_chunk_<i>`, metadata {filename, doc_id, chunk_id: i},
      the chunk itself and, for a provider answering in any order, its own
      embedding; all ids are distinct; the report gives the chunk count and
      the first min(3, n) chunks. */
  lemma UploadSuccess(
    filename: string, extract: Extractor, docId: string, provider: Provider, add: StoreAdd,
    truth: string -> Vector)
    ensures var run := Upload(filename, true, extract, docId, provider, add);
            run.response.Ok? ==>
              var text := extract(FileTypeOf(filename)).value;
              var chunks := Chunker.Chunks(text, Chunker.DefaultMaxLen);
              var n := |chunks|;
              var req := run.writes[0];
              && extract(FileTypeOf(filename)).Ok?
              && n > 0
              && run.writes == [req]
              && add(req)
              && run.embedCalls == Batches(chunks)
              && req.documents == chunks
              && (AnswersInAnyOrder(provider, truth) ==> req.embeddings == Apply(truth, chunks))
              && |req.ids| == n && |req.metadatas| == n
              && (forall i :: 0 <= i < n ==> req.ids[i] == docId + "_chunk_" + NatToString(i))
              && (forall i :: 0 <= i < n ==> req.metadatas[i] == Metadata(filename, docId, i))
              && (forall i, j :: 0 <= i < j < n ==> req.ids[i] != req.ids[j])
              && run.response.value == Report(filename, FileTypeOf(filename).Name(), n, docId, chunks[..Min(3, n)])
  {
    var run := Upload(filename, true, extract, docId, provider, add);
    if run.response.Ok? {
      var text := extract(FileTypeOf(filename)).value;
      var chunks := Chunker.Chunks(text, Chunker.DefaultMaxLen);
      if AnswersInAnyOrder(provider, truth) {
        EmbedInOrder(provider, truth, chunks);
      }
      var req := run.writes[0];
      forall i, j | 0 <= i < j < |chunks|
        ensures req.ids[i] != req.ids[j]
      {
        ChunkIdUnique(docId, i, docId, j);
      }
    }
  }
}
