/**
 * `combineBase64ArrayList`, which both provider hooks define identically:
 * decode every base64 chunk (a falsy chunk contributes zero bytes), copy the
 * chunks one after another into one fresh byte buffer at a running offset,
 * and encode that buffer once.
 */
module CodecBridge {
  import opened Wrappers
  import opened Base64

  /** One element of the `map`: the empty (falsy) string is zero bytes, anything else is decoded. */
  function DecodeChunk(text: string): (r: Option<seq<byte>>)
    ensures text == "" ==> r == Some([])
    ensures r.Some? <==> text == "" || IsBase64(text)
  {
    if text == "" then Some([]) else Decode(text)
  }

  /** Every chunk is decodable: falsy, or valid base64. */
  predicate AllDecodable(texts: seq<string>) {
    forall i :: 0 <= i < |texts| ==> DecodeChunk(texts[i]).Some?
  }

  /** The `pcmChunks` array: each text decoded, in list order. */
  function DecodeAll(texts: seq<string>): (chunks: seq<seq<byte>>)
    requires AllDecodable(texts)
    ensures |chunks| == |texts|
    ensures forall i :: 0 <= i < |texts| ==> DecodeChunk(texts[i]) == Some(chunks[i])
  {
    seq(|texts|, i requires 0 <= i < |texts| && DecodeChunk(texts[i]).Some? => DecodeChunk(texts[i]).value)
  }

  /** The chunks laid end to end, in list order. */
  function Concat(chunks: seq<seq<byte>>): seq<byte> {
    if chunks == [] then [] else Concat(chunks[..|chunks| - 1]) + chunks[|chunks| - 1]
  }

  /** `pcmChunks.reduce((acc, chunk) => acc + chunk.length, 0)`. */
  function TotalLength(chunks: seq<seq<byte>>): (r: nat)
    ensures forall i :: 0 <= i < |chunks| ==> |chunks[i]| <= r
    ensures r == 0 <==> forall i :: 0 <= i < |chunks| ==> chunks[i] == []
  {
    if chunks == [] then 0 else TotalLength(chunks[..|chunks| - 1]) + |chunks[|chunks| - 1]|
  }

  /** The combined buffer is exactly `totalLength` bytes long. */
  lemma {:induction false} ConcatLength(chunks: seq<seq<byte>>)
    ensures |Concat(chunks)| == TotalLength(chunks)
  {
    if chunks != [] {
      ConcatLength(chunks[..|chunks| - 1]);
    }
  }

  /** Concatenation respects the order of the list: the left list's bytes come first. */
  lemma {:induction false} ConcatAppend(a: seq<seq<byte>>, b: seq<seq<byte>>)
    ensures Concat(a + b) == Concat(a) + Concat(b)
    decreases |b|
  {
    if b == [] {
      assert a + b == a;
    } else {
      var n := |b| - 1;
      assert (a + b)[..|a + b| - 1] == a + b[..n];
      assert (a + b)[|a + b| - 1] == b[n];
      ConcatAppend(a, b[..n]);
    }
  }

  /** The chunk at index `i` is written at offset `TotalLength(chunks[..i])` and ends within `totalLength`. */
  lemma {:induction false} OffsetWithinTotal(chunks: seq<seq<byte>>, i: nat)
    requires i < |chunks|
    ensures TotalLength(chunks[..i]) + |chunks[i]| <= TotalLength(chunks)
    decreases |chunks|
  {
    var n := |chunks| - 1;
    if i == n {
      assert chunks[..n] == chunks[..i];
    } else {
      assert chunks[..n][..i] == chunks[..i];
      OffsetWithinTotal(chunks[..n], i);
    }
  }

  /** Decoding distributes over appending lists of texts. */
  lemma DecodeAllAppend(xs: seq<string>, ys: seq<string>)
    requires AllDecodable(xs) && AllDecodable(ys)
    ensures AllDecodable(xs + ys)
    ensures DecodeAll(xs + ys) == DecodeAll(xs) + DecodeAll(ys)
  {
    var zs := xs + ys;
    forall i | 0 <= i < |zs| ensures DecodeChunk(zs[i]).Some? {
      if i < |xs| {
        assert zs[i] == xs[i];
      } else {
        assert zs[i] == ys[i - |xs|];
      }
    }
    var l, r := DecodeAll(zs), DecodeAll(xs) + DecodeAll(ys);
    forall i | 0 <= i < |l| ensures l[i] == r[i] {
      if i < |xs| {
        assert zs[i] == xs[i] && r[i] == DecodeAll(xs)[i];
      } else {
        assert zs[i] == ys[i - |xs|] && r[i] == DecodeAll(ys)[i - |xs|];
      }
    }
    assert l == r;
  }

  /**
   * The combined string: the specification of `combineBase64ArrayList`.
   * Decoding it gives back every chunk's bytes, in list order.
   */
  function Combine(texts: seq<string>): (combined: string)
    requires AllDecodable(texts)
    ensures Decode(combined) == Some(Concat(DecodeAll(texts)))
  {
    DecodeEncode(Concat(DecodeAll(texts)));
    Encode(Concat(DecodeAll(texts)))
  }

  /** `Uint8Array.prototype.set`: write `chunk` into `target` starting at `offset`. */
  method SetAt(target: array<byte>, chunk: seq<byte>, offset: nat)
    requires offset + |chunk| <= target.Length
    modifies target
    ensures target[..] == old(target[..offset]) + chunk + old(target[offset + |chunk|..])
  {
    for j := 0 to |chunk|
      invariant forall k :: 0 <= k < offset ==> target[k] == old(target[k])
      invariant forall k :: 0 <= k < j ==> target[offset + k] == chunk[k]
      invariant forall k :: offset + j <= k < target.Length ==> target[k] == old(target[k])
    {
      target[offset + j] := chunk[j];
    }
    assert target[..] == old(target[..offset]) + chunk + old(target[offset + |chunk|..]);
  }

  /** One more chunk: the concatenation and the total length of a longer prefix. */
  lemma ConcatPrefixStep(chunks: seq<seq<byte>>, i: nat)
    requires i < |chunks|
    ensures Concat(chunks[..i + 1]) == Concat(chunks[..i]) + chunks[i]
    ensures TotalLength(chunks[..i + 1]) == TotalLength(chunks[..i]) + |chunks[i]|
  {
    assert chunks[..i + 1][..i] == chunks[..i];
  }

  /** After writing `chunk` at `offset` behind a prefix `done`, the prefix grows by `chunk`. */
  lemma PrefixAfterWrite(before: seq<byte>, after: seq<byte>, done: seq<byte>, chunk: seq<byte>, offset: nat)
    requires offset + |chunk| <= |before| && before[..offset] == done
    requires after == before[..offset] + chunk + before[offset + |chunk|..]
    ensures after[..offset + |chunk|] == done + chunk
  {
  }

  /**
   * The source's algorithm: sum the lengths, allocate one buffer, copy every
   * chunk at the running offset, encode once.
   */
  method CombineBase64ArrayList(base64Array: seq<string>) returns (combinedBase64: string)
    requires AllDecodable(base64Array)
    ensures combinedBase64 == Combine(base64Array)
    ensures Decode(combinedBase64) == Some(Concat(DecodeAll(base64Array)))
  {
    var pcmChunks := DecodeAll(base64Array);
    var totalLength := TotalLength(pcmChunks);
    var combined := new byte[totalLength];
    var offset := 0;
    for i := 0 to |pcmChunks|
      invariant offset == TotalLength(pcmChunks[..i])
      invariant offset <= totalLength
      invariant combined[..offset] == Concat(pcmChunks[..i])
    {
      OffsetWithinTotal(pcmChunks, i);
      ConcatPrefixStep(pcmChunks, i);
      ghost var before := combined[..];
      SetAt(combined, pcmChunks[i], offset);
      PrefixAfterWrite(before, combined[..], Concat(pcmChunks[..i]), pcmChunks[i], offset);
      offset := offset + |pcmChunks[i]|;
    }
    assert pcmChunks[..|pcmChunks|] == pcmChunks;
    assert combined[..] == combined[..offset];
    combinedBase64 := Encode(combined[..]);
  }

  // ---------------------------------------------------------------------------
  // Properties of the combined string

  /** Combining no chunks gives the encoding of zero bytes, the empty string. */
  lemma CombineEmpty()
    ensures Combine([]) == ""
  {
  }

  /** `combine(xs ++ ys)` decodes to the bytes of `xs` followed by the bytes of `ys`. */
  lemma CombineAppend(xs: seq<string>, ys: seq<string>)
    requires AllDecodable(xs) && AllDecodable(ys)
    ensures AllDecodable(xs + ys)
    ensures Decode(Combine(xs + ys)) == Some(Concat(DecodeAll(xs)) + Concat(DecodeAll(ys)))
  {
    DecodeAllAppend(xs, ys);
    ConcatAppend(DecodeAll(xs), DecodeAll(ys));
  }

  /** Two chunks: `combine([a, b]) == encode(decode(a) ++ decode(b))`. */
  lemma CombinePair(a: string, b: string, x: seq<byte>, y: seq<byte>)
    requires DecodeChunk(a) == Some(x) && DecodeChunk(b) == Some(y)
    ensures AllDecodable([a, b])
    ensures Combine([a, b]) == Encode(x + y)
  {
    assert DecodeAll([a, b]) == [x, y];
    assert [x, y][..1] == [x];
    assert Concat([x]) == x by { assert [x][..0] == []; }
  }

  /** A falsy chunk anywhere in the list contributes no bytes. */
  lemma FalsyChunkContributesNothing(xs: seq<string>, ys: seq<string>)
    requires AllDecodable(xs) && AllDecodable(ys)
    ensures AllDecodable(xs + [""] + ys) && AllDecodable(xs + ys)
    ensures Combine(xs + [""] + ys) == Combine(xs + ys)
  {
    var dx, dy := DecodeAll(xs), DecodeAll(ys);
    assert DecodeAll([""]) == [[]];
    DecodeAllAppend(xs, [""]);
    DecodeAllAppend(xs + [""], ys);
    DecodeAllAppend(xs, ys);
    calc {
      Concat(DecodeAll(xs + [""] + ys));
      Concat(dx + [[]] + dy);
      { ConcatAppend(dx + [[]], dy); }
      Concat(dx + [[]]) + Concat(dy);
      { assert (dx + [[]])[..|dx|] == dx; }
      Concat(dx) + Concat(dy);
      { ConcatAppend(dx, dy); }
      Concat(DecodeAll(xs + ys));
    }
  }

  /** Combining a single chunk that is some encoding gives that chunk back. */
  lemma CombineSingle(b: seq<byte>)
    ensures AllDecodable([Encode(b)])
    ensures Combine([Encode(b)]) == Encode(b)
  {
    DecodeEncode(b);
    assert DecodeChunk(Encode(b)) == Some(b) by {
      if b == [] { assert Encode(b) == ""; }
    }
    var d := DecodeAll([Encode(b)]);
    assert d == [b];
    assert d[..0] == [];
    assert Concat(d) == b;
  }

  /**
   * When the first chunk's byte length is a multiple of three (no padding),
   * combining two encodings is plain string concatenation.
   */
  lemma CombineAligned(x: seq<byte>, y: seq<byte>)
    requires |x| % 3 == 0
    ensures AllDecodable([Encode(x), Encode(y)])
    ensures Combine([Encode(x), Encode(y)]) == Encode(x) + Encode(y)
  {
    DecodeEncode(x);
    DecodeEncode(y);
    CombinePair(Encode(x), Encode(y), x, y);
    EncodeAppend(x, y);
  }
}
