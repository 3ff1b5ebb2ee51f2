/** The overlapping character-window chunker `chunk_text` of
    backend/utils/pdf_parser.py: windows of `max_chunk_len` characters taken
    every `int(max_chunk_len * 0.75)` characters, so neighbours share a quarter. */
module Chunker {
  import opened Results
  import opened Windows

  /** The default `max_chunk_len`, the one the upload handler uses. */
  const DefaultMaxLen: int := 500

  /** `int(maxLen * 0.75)` computed on integers: 3*maxLen/4 truncated toward
      zero. For |maxLen| below 2^51 the double product is exact (0.75 is exact
      in binary and 3*maxLen fits the 53-bit significand), so the two agree;
      beyond that the float rounds and the model does not follow it. */
  function Stride(maxLen: int): (s: int)
    ensures maxLen >= 0 ==> 0 <= 4 * s <= 3 * maxLen < 4 * s + 4
    ensures maxLen < 0 ==> 4 * s - 4 < 3 * maxLen <= 4 * s <= 0
    ensures s >= 1 <==> maxLen >= 2
    ensures s == 0 <==> -1 <= maxLen <= 1
    ensures maxLen >= 2 ==> s < maxLen <= 2 * s
  {
    if maxLen >= 0 then (3 * maxLen) / 4 else -((-3 * maxLen) / 4)
  }

  /** Python's `range()` refuses a zero step. */
  datatype ChunkError = ZeroStride

  /** Reference definition: the windows of `text` at offsets 0, stride,
      2*stride, ... before the end of the text. */
  function Chunks(text: string, maxLen: int): seq<string>
    requires maxLen >= 2
  {
    AllWindows(text, maxLen as nat, Stride(maxLen) as nat)
  }

  /** Python's `s[lo:hi]` for non-negative bounds: empty when the bounds
      cross or start past the end, clipped at the end otherwise. */
  function Slice(s: string, lo: nat, hi: nat): (r: string)
    ensures |r| <= |s|
    ensures lo < |s| && lo < hi ==> r == s[lo..Min(hi, |s|)]
    ensures |s| <= lo || hi <= lo ==> r == ""
  {
    if lo >= |s| || hi <= lo then "" else s[lo..Min(hi, |s|)]
  }

  /** `chunk_text` as written: the range loop, the slice, and the filter that
      keeps only non-empty slices. A zero stride is Python's ValueError; a
      negative one makes the range empty. */
  method ChunkText(text: string, maxLen: int) returns (r: Result<seq<string>, ChunkError>)
    ensures r.Err? <==> -1 <= maxLen <= 1
    ensures maxLen <= -2 ==> r == Ok([])
    ensures maxLen >= 2 ==> r == Ok(Chunks(text, maxLen))
  {
    var stride := Stride(maxLen);
    if stride == 0 {
      return Err(ZeroStride);
    }
    if stride < 0 {
      return Ok([]);
    }
    var chunks: seq<string> := [];
    var i: nat := 0;
    while i < |text|
      invariant chunks + WindowsFrom(text, maxLen as nat, stride as nat, i) == Chunks(text, maxLen)
      decreases |text| - i
    {
      var chunk := Slice(text, i, i + maxLen);
      assert chunk == Window(text, maxLen as nat, i);
      if chunk != "" {
        chunks := chunks + [chunk];
      }
      i := i + stride;
    }
    assert WindowsFrom(text, maxLen as nat, stride as nat, i) == [];
    assert chunks + [] == chunks;
    return Ok(chunks);
  }

  /** There are ceil(|text| / stride) chunks; none for the empty text and at
      least one otherwise. */
  lemma ChunkCount(text: string, maxLen: int)
    requires maxLen >= 2
    ensures |Chunks(text, maxLen)| == CeilDiv(|text|, Stride(maxLen) as nat)
    ensures |Chunks(text, maxLen)| == 0 <==> |text| == 0
  {
    var s := Stride(maxLen) as nat;
    WindowsCount(text, maxLen as nat, s, 0);
    CeilDivUnique(|Chunks(text, maxLen)|, |text|, s);
  }

  /** Chunk k is the slice of `text` starting at k*stride, `maxLen` long or
      cut off by the end of the text; every such offset lies inside the text. */
  lemma ChunkIsSlice(text: string, maxLen: int, k: nat)
    requires maxLen >= 2
    requires k < |Chunks(text, maxLen)|
    ensures k * Stride(maxLen) < |text|
    ensures Chunks(text, maxLen)[k] == text[k * Stride(maxLen)..Min(k * Stride(maxLen) + maxLen, |text|)]
  {
    WindowsAt(text, maxLen as nat, Stride(maxLen) as nat, 0, k);
  }

  /** Every chunk holds between 1 and `maxLen` characters, so the `if chunk`
      filter never drops one, and the last chunk ends at the end of the text. */
  lemma ChunkLengths(text: string, maxLen: int)
    requires maxLen >= 2
    ensures forall k :: 0 <= k < |Chunks(text, maxLen)| ==> 1 <= |Chunks(text, maxLen)[k]| <= maxLen
    ensures var cs := Chunks(text, maxLen);
            |cs| > 0 ==> (|cs| - 1) * Stride(maxLen) + |cs[|cs| - 1]| == |text|
  {
    var cs := Chunks(text, maxLen);
    forall k | 0 <= k < |cs|
      ensures 1 <= |cs[k]| <= maxLen
    {
      WindowLengths(text, maxLen as nat, Stride(maxLen) as nat, 0, k);
    }
    if |cs| > 0 {
      LastWindowEnds(text, maxLen as nat, Stride(maxLen) as nat);
    }
  }

  /** Reconstruction: the first `stride` characters of every chunk but the
      last, followed by the whole last chunk, give back the text. */
  lemma ChunksReconstruct(text: string, maxLen: int)
    requires maxLen >= 2
    ensures Stitch(Chunks(text, maxLen), Stride(maxLen) as nat) == text
  {
    StitchWindows(text, maxLen as nat, Stride(maxLen) as nat, 0);
  }

  /** Neighbouring chunks overlap by maxLen - stride characters, fewer only
      where the end of the text cuts the overlap short: chunk k past its first
      `stride` characters is the beginning of chunk k+1. */
  lemma ChunksOverlap(text: string, maxLen: int, k: nat)
    requires maxLen >= 2
    requires k + 1 < |Chunks(text, maxLen)|
    ensures var cs := Chunks(text, maxLen);
            var s := Stride(maxLen);
            && s <= |cs[k]| <= s + |cs[k + 1]|
            && |cs[k]| - s == Min(maxLen - s, |text| - (k + 1) * s)
            && cs[k][s..] == cs[k + 1][..|cs[k]| - s]
  {
    WindowsOverlap(text, maxLen as nat, Stride(maxLen) as nat, k);
  }

  /** Short texts: up to one stride gives the text as its only chunk; between
      one stride and `maxLen` gives two chunks, the whole text and its tail
      after the first stride. */
  lemma ShortTextChunks(text: string, maxLen: int)
    requires maxLen >= 2
    ensures 0 < |text| <= Stride(maxLen) ==> Chunks(text, maxLen) == [text]
    ensures Stride(maxLen) < |text| <= maxLen ==>
              Chunks(text, maxLen) == [text, text[Stride(maxLen)..]]
  {
    var s := Stride(maxLen) as nat;
    var m := maxLen as nat;
    if 0 < |text| <= s {
      assert WindowsFrom(text, m, s, s) == [];
      assert Window(text, m, 0) == text;
    }
    if s < |text| <= m {
      assert WindowsFrom(text, m, s, s + s) == [];
      assert Window(text, m, 0) == text;
      assert Window(text, m, s) == text[s..];
    }
  }

  /** The default setting: a 400-character text gives chunks at offsets 0 and
      375, and a 1200-character text gives four chunks of 500, 500, 450 and
      75 characters at offsets 0, 375, 750 and 1125. */
  lemma DefaultChunking(text: string)
    ensures Stride(DefaultMaxLen) == 375
    ensures |text| == 400 ==> Chunks(text, DefaultMaxLen) == [text, text[375..]]
    ensures |text| == 1200 ==>
              Chunks(text, DefaultMaxLen) == [text[..500], text[375..875], text[750..], text[1125..]]
  {
    if |text| == 400 {
      ShortTextChunks(text, DefaultMaxLen);
    }
    if |text| == 1200 {
      assert WindowsFrom(text, 500, 375, 1500) == [];
      assert Window(text, 500, 1125) == text[1125..];
      assert Window(text, 500, 750) == text[750..];
      assert WindowsFrom(text, 500, 375, 1125) == [text[1125..]];
      assert WindowsFrom(text, 500, 375, 750) == [text[750..]] + [text[1125..]];
      assert WindowsFrom(text, 500, 375, 375) == [text[375..875]] + [text[750..], text[1125..]];
      assert WindowsFrom(text, 500, 375, 0) == [text[..500]] + [text[375..875], text[750..], text[1125..]];
    }
  }
}
