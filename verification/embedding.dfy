/** `embed_chunks_openai` of backend/main.py: the inputs go to the embedding
    provider in consecutive batches of at most 20, each response is put back
    in request order by the index the provider reports, and the per-batch
    results are concatenated. The provider itself is a function parameter. */
module Embedding {
  import opened Results
  import opened Windows

  /** An embedding; its numbers are never inspected here. */
  type Vector = seq<real>

  /** One entry of a provider response: the position of the input it answers
      within the request, and its embedding. */
  datatype Item = Item(index: int, embedding: Vector)

  /** The remote embedding call on one batch of inputs: the response entries
      in whatever order the provider sends them, or the error it raised. */
  type Provider = seq<string> -> Result<seq<Item>, string>

  const BatchSize: nat := 20

  /** `chunks[i:i+20]` for i = 0, 20, 40, ... */
  function Batches(chunks: seq<string>): seq<seq<string>>
  {
    AllWindows(chunks, BatchSize, BatchSize)
  }

  /** The batches are consecutive slices of at most 20 inputs that concatenate
      back to the input; there are ceil(n / 20) of them, so 21 inputs take a
      full batch of 20 and a second batch of one. */
  lemma BatchShape(chunks: seq<string>)
    ensures |Batches(chunks)| == CeilDiv(|chunks|, BatchSize)
    ensures |chunks| == 21 ==> |Batches(chunks)| == 2 && |Batches(chunks)[0]| == 20 && |Batches(chunks)[1]| == 1
    ensures forall k :: 0 <= k < |Batches(chunks)| ==>
              && 1 <= |Batches(chunks)[k]| <= BatchSize
              && k * BatchSize < |chunks|
              && Batches(chunks)[k] == chunks[k * BatchSize..Min(k * BatchSize + BatchSize, |chunks|)]
    ensures Flatten(Batches(chunks)) == chunks
  {
    var bs := Batches(chunks);
    WindowsCount(chunks, BatchSize, BatchSize, 0);
    CeilDivUnique(|bs|, |chunks|, BatchSize);
    forall k | 0 <= k < |bs|
      ensures 1 <= |bs[k]| <= BatchSize
      ensures k * BatchSize < |chunks|
      ensures bs[k] == chunks[k * BatchSize..Min(k * BatchSize + BatchSize, |chunks|)]
    {
      WindowsAt(chunks, BatchSize, BatchSize, 0, k);
      WindowLengths(chunks, BatchSize, BatchSize, 0, k);
    }
    FlattenWindows(chunks, BatchSize, 0);
  }

  /** Up to 20 inputs go out in a single request. */
  lemma OneBatch(chunks: seq<string>)
    requires 0 < |chunks| <= BatchSize
    ensures Batches(chunks) == [chunks]
  {
    assert WindowsFrom(chunks, BatchSize, BatchSize, BatchSize) == [];
    assert Window(chunks, BatchSize, 0) == chunks;
  }

  predicate SortedByIndex(s: seq<Item>)
  {
    forall i, j :: 0 <= i < j < |s| ==> s[i].index <= s[j].index
  }

  predicate StrictlySortedByIndex(s: seq<Item>)
  {
    forall i, j :: 0 <= i < j < |s| ==> s[i].index < s[j].index
  }

  /** Inserts `x` before the first entry whose index is not smaller. */
  function InsertByIndex(x: Item, s: seq<Item>): (r: seq<Item>)
    requires SortedByIndex(s)
    ensures |r| == |s| + 1
    ensures r[0] == x || (|s| > 0 && r[0] == s[0])
    ensures SortedByIndex(r)
    ensures multiset(r) == multiset(s) + multiset{x}
  {
    if |s| == 0 || x.index <= s[0].index then [x] + s
    else
      var rest := InsertByIndex(x, s[1..]);
      assert s == [s[0]] + s[1..];
      assert s[0].index <= rest[0].index;
      [s[0]] + rest
  }

  /** Python's `sorted(data, key=lambda x: x.index)`: a stable sort by index. */
  function SortByIndex(s: seq<Item>): (r: seq<Item>)
    ensures SortedByIndex(r)
    ensures multiset(r) == multiset(s)
  {
    if |s| == 0 then []
    else
      assert s == [s[0]] + s[1..];
      InsertByIndex(s[0], SortByIndex(s[1..]))
  }

  /** The canonical response to a batch: entry j answers input j. */
  function Indexed(vs: seq<Vector>): (r: seq<Item>)
    ensures |r| == |vs|
    ensures forall j :: 0 <= j < |r| ==> r[j] == Item(j, vs[j])
  {
    seq(|vs|, j requires 0 <= j < |vs| => Item(j, vs[j]))
  }

  function Vectors(items: seq<Item>): (r: seq<Vector>)
    ensures |r| == |items|
    ensures forall j :: 0 <= j < |r| ==> r[j] == items[j].embedding
  {
    seq(|items|, j requires 0 <= j < |items| => items[j].embedding)
  }

  /** `f` applied to every element, in order. */
  function Apply(f: string -> Vector, xs: seq<string>): (r: seq<Vector>)
    ensures |r| == |xs|
    ensures forall j :: 0 <= j < |r| ==> r[j] == f(xs[j])
  {
    seq(|xs|, j requires 0 <= j < |xs| => f(xs[j]))
  }

  lemma HeadsAgree(s: seq<Item>, t: seq<Item>)
    requires SortedByIndex(s) && StrictlySortedByIndex(t)
    requires multiset(s) == multiset(t)
    requires |s| > 0
    ensures |t| > 0 && s[0] == t[0]
  {
    assert s[0] in multiset(t);
    assert t[0] in multiset(s);
    var i :| 0 <= i < |t| && t[i] == s[0];
    var j :| 0 <= j < |s| && s[j] == t[0];
    assert s[0].index <= s[j].index;
    assert t[0].index <= t[i].index;
    assert i == 0;
  }

  lemma TailMultiset(s: seq<Item>)
    requires |s| > 0
    ensures multiset(s[1..]) == multiset(s) - multiset{s[0]}
  {
    assert s == [s[0]] + s[1..];
  }

  /** Two sequences with the same entries, both sorted by index, the second
      without repeated indices, are the same sequence. */
  lemma {:induction false} SortedUnique(s: seq<Item>, t: seq<Item>)
    requires SortedByIndex(s) && StrictlySortedByIndex(t)
    requires multiset(s) == multiset(t)
    ensures s == t
    decreases |s|
  {
    if |s| == 0 {
      assert |multiset(t)| == 0;
    } else {
      HeadsAgree(s, t);
      TailMultiset(s);
      TailMultiset(t);
      SortedUnique(s[1..], t[1..]);
      assert s == [s[0]] + s[1..];
      assert t == [t[0]] + t[1..];
    }
  }

  /** Re-sorting any shuffle of the canonical response restores it: after
      sorting, entry j answers input j. */
  lemma SortRestoresOrder(response: seq<Item>, vs: seq<Vector>)
    requires multiset(response) == multiset(Indexed(vs))
    ensures SortByIndex(response) == Indexed(vs)
    ensures Vectors(SortByIndex(response)) == vs
  {
    SortedUnique(SortByIndex(response), Indexed(vs));
  }

  datatype EmbedError = MissingKey | ProviderFailed(message: string)
  {
    /** `str(e)` of the exception raised. */
    function Message(): string
    {
      match this
      case MissingKey => "OpenAI API Key not set!"
      case ProviderFailed(message) => message
    }
  }

  /** The outcome of embedding, together with the batches sent to the
      provider, in order. */
  datatype EmbedRun = EmbedRun(result: Result<seq<Vector>, EmbedError>, calls: seq<seq<string>>)

  /** The batch loop: one provider call per batch, stopping at the first
      failure; each response is sorted by index and its embeddings appended. */
  function EmbedBatches(provider: Provider, batches: seq<seq<string>>): (run: EmbedRun)
    ensures run.calls <= batches
    ensures run.result.Ok? <==> forall j :: 0 <= j < |batches| ==> provider(batches[j]).Ok?
    ensures run.result.Ok? ==> run.calls == batches
    ensures run.result.Err? ==>
              && |run.calls| > 0
              && provider(run.calls[|run.calls| - 1]).Err?
              && run.result.error == ProviderFailed(provider(run.calls[|run.calls| - 1]).error)
              && forall j :: 0 <= j < |run.calls| - 1 ==> provider(run.calls[j]).Ok?
  {
    if |batches| == 0 then EmbedRun(Ok([]), [])
    else
      match provider(batches[0])
      case Err(message) => EmbedRun(Err(ProviderFailed(message)), [batches[0]])
      case Ok(items) =>
        var rest := EmbedBatches(provider, batches[1..]);
        assert forall j :: 0 < j < |batches| ==> batches[j] == batches[1..][j - 1];
        var result := if rest.result.Ok? then Ok(Vectors(SortByIndex(items)) + rest.result.value)
                      else rest.result;
        EmbedRun(result, [batches[0]] + rest.calls)
  }

  /** `embed_chunks_openai`: without an API key it fails before any provider
      call; otherwise it runs the batch loop over `Batches(chunks)`. */
  function EmbedChunks(hasKey: bool, provider: Provider, chunks: seq<string>): (run: EmbedRun)
    ensures !hasKey ==> run.result == Err(MissingKey) && run.calls == []
    ensures run.calls <= Batches(chunks)
    ensures run.result.Ok? <==>
              hasKey && forall j :: 0 <= j < |Batches(chunks)| ==> provider(Batches(chunks)[j]).Ok?
    ensures run.result.Ok? ==> run.calls == Batches(chunks)
  {
    if !hasKey then EmbedRun(Err(MissingKey), [])
    else EmbedBatches(provider, Batches(chunks))
  }

  /** A provider that answers every batch with some shuffle of one indexed
      embedding per input, `truth` giving the embedding of each text. */
  ghost predicate AnswersInAnyOrder(provider: Provider, truth: string -> Vector)
  {
    forall b :: provider(b).Ok? ==> multiset(provider(b).value) == multiset(Indexed(Apply(truth, b)))
  }

  lemma ApplyConcat(f: string -> Vector, a: seq<string>, b: seq<string>)
    ensures Apply(f, a + b) == Apply(f, a) + Apply(f, b)
  {
  }

  lemma {:induction false} EmbedBatchesInOrder(provider: Provider, truth: string -> Vector, batches: seq<seq<string>>)
    requires AnswersInAnyOrder(provider, truth)
    ensures EmbedBatches(provider, batches).result.Ok? ==>
              EmbedBatches(provider, batches).result.value == Apply(truth, Flatten(batches))
  {
    if |batches| > 0 && provider(batches[0]).Ok? {
      var items := provider(batches[0]).value;
      var rest := EmbedBatches(provider, batches[1..]);
      if rest.result.Ok? {
        EmbedBatchesInOrder(provider, truth, batches[1..]);
        SortRestoresOrder(items, Apply(truth, batches[0]));
        assert EmbedBatches(provider, batches).result.value
            == Vectors(SortByIndex(items)) + rest.result.value;
        ApplyConcat(truth, batches[0], Flatten(batches[1..]));
      }
    }
  }

  /** However the provider shuffles each response, a successful embedding
      lists the embedding of input i at position i, one per input. */
  lemma EmbedInOrder(provider: Provider, truth: string -> Vector, chunks: seq<string>)
    requires AnswersInAnyOrder(provider, truth)
    ensures EmbedChunks(true, provider, chunks).result.Ok? ==>
              EmbedChunks(true, provider, chunks).result.value == Apply(truth, chunks)
  {
    EmbedBatchesInOrder(provider, truth, Batches(chunks));
    BatchShape(chunks);
  }
}
