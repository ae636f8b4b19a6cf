/** Layout v1 of a K/V payload: bytes by layer, head, block, offset and head dimension, row by row. */
module WireFormat {
  import opened Hashing
  import opened PagedCache
  import opened Spans

  // ---------------------------------------------------------------- pieces of one width

  function Concat(parts: seq<Str>): Str {
    if parts == [] then [] else Concat(parts[..|parts| - 1]) + parts[|parts| - 1]
  }

  predicate Even(parts: seq<Str>, n: nat, width: nat) {
    |parts| == n && forall k :: 0 <= k < n ==> |parts[k]| == width
  }

  /** The k-th of n pieces of one width. */
  function Piece(s: Str, k: nat, n: nat, width: nat): (piece: Str)
    requires k < n && |s| == Span(n, width)
    ensures |piece| == width
  {
    SpanMonotone(k + 1, n, width);
    s[Span(k, width)..Span(k + 1, width)]
  }

  function Pieces(s: Str, n: nat, width: nat): (parts: seq<Str>)
    requires |s| == Span(n, width)
    ensures Even(parts, n, width) && forall k :: 0 <= k < n ==> parts[k] == Piece(s, k, n, width)
  {
    seq(n, k requires 0 <= k < n => Piece(s, k, n, width))
  }

  lemma {:induction false} ConcatSize(parts: seq<Str>, n: nat, width: nat)
    requires Even(parts, n, width)
    ensures |Concat(parts)| == Span(n, width)
    decreases n
  {
    if n > 0 {
      ConcatSize(parts[..n - 1], n - 1, width);
    }
  }

  lemma {:induction false} PieceOfConcat(parts: seq<Str>, n: nat, width: nat, k: nat)
    requires Even(parts, n, width) && k < n
    ensures |Concat(parts)| == Span(n, width) && Piece(Concat(parts), k, n, width) == parts[k]
    decreases n
  {
    ConcatSize(parts, n, width);
    var front := parts[..n - 1];
    ConcatSize(front, n - 1, width);
    if k < n - 1 {
      SpanMonotone(k + 1, n - 1, width);
      PieceOfConcat(front, n - 1, width, k);
    }
  }

  lemma {:induction false} ConcatOfPieces(s: Str, n: nat, width: nat)
    requires |s| == Span(n, width)
    ensures Concat(Pieces(s, n, width)) == s
    decreases n
  {
    if n > 0 {
      var front := s[..Span(n - 1, width)];
      ConcatOfPieces(front, n - 1, width);
      forall k | 0 <= k < n - 1
        ensures Pieces(front, n - 1, width)[k] == Pieces(s, n, width)[k]
      {
        SpanMonotone(k + 1, n - 1, width);
      }
      assert Pieces(s, n, width)[..n - 1] == Pieces(front, n - 1, width);
    }
  }

  // ---------------------------------------------------------------- one vector

  /** The bytes of one token's keys (or values) in one layer, head by head. */
  datatype Codec<!V> = Codec(heads: nat, headBytes: nat, split: V -> seq<Str>, join: seq<Str> -> V)

  /** Bit patterns are preserved both ways. */
  ghost predicate Faithful<V(!new)>(c: Codec<V>) {
    && (forall v: V :: Even(c.split(v), c.heads, c.headBytes) && c.join(c.split(v)) == v)
    && (forall parts: seq<Str> :: Even(parts, c.heads, c.headBytes) ==> c.split(c.join(parts)) == parts)
  }

  // ---------------------------------------------------------------- encode_tensor

  /** Bytes of one block of one head, of one head, and of one layer. */
  function BlockBytes<V>(c: Codec<V>, bs: nat): nat {
    Span(bs, c.headBytes)
  }

  function HeadBytes<V>(c: Codec<V>, n: nat, bs: nat): nat {
    Span(n, BlockBytes(c, bs))
  }

  function LayerBytes<V>(c: Codec<V>, n: nat, bs: nat): nat {
    Span(c.heads, HeadBytes(c, n, bs))
  }

  function WireBytes<V>(c: Codec<V>, layers: nat, n: nat, bs: nat): nat {
    Span(layers, LayerBytes(c, n, bs))
  }

  function VectorParts<V(!new)>(c: Codec<V>, block: seq<V>, h: nat): (parts: seq<Str>)
    requires Faithful(c) && h < c.heads
    ensures Even(parts, |block|, c.headBytes) && forall o :: 0 <= o < |block| ==> parts[o] == c.split(block[o])[h]
  {
    seq(|block|, o requires 0 <= o < |block| => c.split(block[o])[h])
  }

  function EncodedBlock<V(!new)>(c: Codec<V>, block: seq<V>, h: nat): (s: Str)
    requires Faithful(c) && h < c.heads
    ensures |s| == BlockBytes(c, |block|)
  {
    ConcatSize(VectorParts(c, block, h), |block|, c.headBytes);
    Concat(VectorParts(c, block, h))
  }

  function BlockParts<V(!new)>(c: Codec<V>, blocks: seq<seq<V>>, bs: nat, h: nat): (parts: seq<Str>)
    requires Faithful(c) && h < c.heads && forall i :: 0 <= i < |blocks| ==> |blocks[i]| == bs
    ensures Even(parts, |blocks|, BlockBytes(c, bs)) && forall i :: 0 <= i < |blocks| ==> parts[i] == EncodedBlock(c, blocks[i], h)
  {
    seq(|blocks|, i requires 0 <= i < |blocks| => EncodedBlock(c, blocks[i], h))
  }

  function EncodedHead<V(!new)>(c: Codec<V>, blocks: seq<seq<V>>, bs: nat, h: nat): (s: Str)
    requires Faithful(c) && h < c.heads && forall i :: 0 <= i < |blocks| ==> |blocks[i]| == bs
    ensures |s| == HeadBytes(c, |blocks|, bs)
  {
    ConcatSize(BlockParts(c, blocks, bs, h), |blocks|, BlockBytes(c, bs));
    Concat(BlockParts(c, blocks, bs, h))
  }

  function HeadParts<V(!new)>(c: Codec<V>, blocks: seq<seq<V>>, bs: nat): (parts: seq<Str>)
    requires Faithful(c) && forall i :: 0 <= i < |blocks| ==> |blocks[i]| == bs
    ensures Even(parts, c.heads, HeadBytes(c, |blocks|, bs)) && forall h :: 0 <= h < c.heads ==> parts[h] == EncodedHead(c, blocks, bs, h)
  {
    seq(c.heads, h requires 0 <= h < c.heads => EncodedHead(c, blocks, bs, h))
  }

  function EncodedLayer<V(!new)>(c: Codec<V>, blocks: seq<seq<V>>, bs: nat): (s: Str)
    requires Faithful(c) && forall i :: 0 <= i < |blocks| ==> |blocks[i]| == bs
    ensures |s| == LayerBytes(c, |blocks|, bs)
  {
    ConcatSize(HeadParts(c, blocks, bs), c.heads, HeadBytes(c, |blocks|, bs));
    Concat(HeadParts(c, blocks, bs))
  }

  function LayerParts<V(!new)>(c: Codec<V>, t: Tensor<V>, layers: nat, n: nat, bs: nat): (parts: seq<Str>)
    requires Faithful(c) && TensorShape(t, layers, n, bs)
    ensures Even(parts, layers, LayerBytes(c, n, bs)) && forall l :: 0 <= l < layers ==> parts[l] == EncodedLayer(c, t[l], bs)
  {
    seq(layers, l requires 0 <= l < layers => EncodedLayer(c, t[l], bs))
  }

  function Encoded<V(!new)>(c: Codec<V>, t: Tensor<V>, layers: nat, n: nat, bs: nat): (s: Str)
    requires Faithful(c) && TensorShape(t, layers, n, bs)
    ensures |s| == WireBytes(c, layers, n, bs)
  {
    ConcatSize(LayerParts(c, t, layers, n, bs), layers, LayerBytes(c, n, bs));
    Concat(LayerParts(c, t, layers, n, bs))
  }

  // ---------------------------------------------------------------- frombuffer and reshape

  /** The vector at a block and offset, in the bytes of one head. */
  function InHead<V>(c: Codec<V>, head: Str, n: nat, bs: nat, i: nat, o: nat): (part: Str)
    requires |head| == HeadBytes(c, n, bs) && i < n && o < bs
    ensures |part| == c.headBytes
  {
    Piece(Piece(head, i, n, BlockBytes(c, bs)), o, bs, c.headBytes)
  }

  function InLayer<V>(c: Codec<V>, layer: Str, n: nat, bs: nat, h: nat, i: nat, o: nat): (part: Str)
    requires |layer| == LayerBytes(c, n, bs) && h < c.heads && i < n && o < bs
    ensures |part| == c.headBytes
  {
    InHead(c, Piece(layer, h, c.heads, HeadBytes(c, n, bs)), n, bs, i, o)
  }

  /** The bytes of one head's vector at a layer, block and offset. */
  function Part<V>(c: Codec<V>, s: Str, layers: nat, n: nat, bs: nat, l: nat, h: nat, i: nat, o: nat): (part: Str)
    requires |s| == WireBytes(c, layers, n, bs) && l < layers && h < c.heads && i < n && o < bs
    ensures |part| == c.headBytes
  {
    InLayer(c, Piece(s, l, layers, LayerBytes(c, n, bs)), n, bs, h, i, o)
  }

  function Parts<V>(c: Codec<V>, s: Str, layers: nat, n: nat, bs: nat, l: nat, i: nat, o: nat): (parts: seq<Str>)
    requires |s| == WireBytes(c, layers, n, bs) && l < layers && i < n && o < bs
    ensures Even(parts, c.heads, c.headBytes)
    ensures forall h :: 0 <= h < c.heads ==> parts[h] == Part(c, s, layers, n, bs, l, h, i, o)
  {
    seq(c.heads, h requires 0 <= h < c.heads => Part(c, s, layers, n, bs, l, h, i, o))
  }

  function Decoded<V>(c: Codec<V>, s: Str, layers: nat, n: nat, bs: nat): (t: Tensor<V>)
    requires |s| == WireBytes(c, layers, n, bs)
    ensures TensorShape(t, layers, n, bs)
    ensures forall l, i, o :: 0 <= l < layers && 0 <= i < n && 0 <= o < bs ==> t[l][i][o] == c.join(Parts(c, s, layers, n, bs, l, i, o))
  {
    seq(layers, l requires 0 <= l < layers =>
      seq(n, i requires 0 <= i < n =>
        seq(bs, o requires 0 <= o < bs => c.join(Parts(c, s, layers, n, bs, l, i, o)))))
  }

  // ---------------------------------------------------------------- the round trips

  lemma PieceOfBlock<V(!new)>(c: Codec<V>, block: seq<V>, h: nat, o: nat)
    requires Faithful(c) && h < c.heads && o < |block|
    ensures Piece(EncodedBlock(c, block, h), o, |block|, c.headBytes) == c.split(block[o])[h]
  {
    PieceOfConcat(VectorParts(c, block, h), |block|, c.headBytes, o);
  }

  lemma PieceOfHead<V(!new)>(c: Codec<V>, blocks: seq<seq<V>>, bs: nat, h: nat, i: nat)
    requires Faithful(c) && h < c.heads && (forall k :: 0 <= k < |blocks| ==> |blocks[k]| == bs) && i < |blocks|
    ensures Piece(EncodedHead(c, blocks, bs, h), i, |blocks|, BlockBytes(c, bs)) == EncodedBlock(c, blocks[i], h)
  {
    PieceOfConcat(BlockParts(c, blocks, bs, h), |blocks|, BlockBytes(c, bs), i);
  }

  lemma PieceOfLayer<V(!new)>(c: Codec<V>, blocks: seq<seq<V>>, bs: nat, h: nat)
    requires Faithful(c) && h < c.heads && forall k :: 0 <= k < |blocks| ==> |blocks[k]| == bs
    ensures Piece(EncodedLayer(c, blocks, bs), h, c.heads, HeadBytes(c, |blocks|, bs)) == EncodedHead(c, blocks, bs, h)
  {
    PieceOfConcat(HeadParts(c, blocks, bs), c.heads, HeadBytes(c, |blocks|, bs), h);
  }

  lemma PieceOfWire<V(!new)>(c: Codec<V>, t: Tensor<V>, layers: nat, n: nat, bs: nat, l: nat)
    requires Faithful(c) && TensorShape(t, layers, n, bs) && l < layers
    ensures Piece(Encoded(c, t, layers, n, bs), l, layers, LayerBytes(c, n, bs)) == EncodedLayer(c, t[l], bs)
  {
    PieceOfConcat(LayerParts(c, t, layers, n, bs), layers, LayerBytes(c, n, bs), l);
  }

  /** Where a vector's bytes are in the payload. */
  lemma PartOfEncoded<V(!new)>(c: Codec<V>, t: Tensor<V>, layers: nat, n: nat, bs: nat, l: nat, h: nat, i: nat, o: nat)
    requires Faithful(c) && TensorShape(t, layers, n, bs) && l < layers && h < c.heads && i < n && o < bs
    ensures Part(c, Encoded(c, t, layers, n, bs), layers, n, bs, l, h, i, o) == c.split(t[l][i][o])[h]
  {
    PieceOfWire(c, t, layers, n, bs, l);
    PieceOfLayer(c, t[l], bs, h);
    PieceOfHead(c, t[l], bs, h, i);
    PieceOfBlock(c, t[l][i], h, o);
  }

  lemma PartsOfEncoded<V(!new)>(c: Codec<V>, t: Tensor<V>, layers: nat, n: nat, bs: nat, l: nat, i: nat, o: nat)
    requires Faithful(c) && TensorShape(t, layers, n, bs) && l < layers && i < n && o < bs
    ensures Parts(c, Encoded(c, t, layers, n, bs), layers, n, bs, l, i, o) == c.split(t[l][i][o])
  {
    var s, v := Encoded(c, t, layers, n, bs), t[l][i][o];
    assert Even(c.split(v), c.heads, c.headBytes);
    forall h | 0 <= h < c.heads
      ensures Parts(c, s, layers, n, bs, l, i, o)[h] == c.split(v)[h]
    {
      PartOfEncoded(c, t, layers, n, bs, l, h, i, o);
    }
  }

  /** What is read back from a payload is the tensor it was made of. */
  lemma DecodeEncode<V(!new)>(c: Codec<V>, t: Tensor<V>, layers: nat, n: nat, bs: nat)
    requires Faithful(c) && TensorShape(t, layers, n, bs)
    ensures Decoded(c, Encoded(c, t, layers, n, bs), layers, n, bs) == t
  {
    var s := Encoded(c, t, layers, n, bs);
    forall l, i, o | 0 <= l < layers && 0 <= i < n && 0 <= o < bs
      ensures Decoded(c, s, layers, n, bs)[l][i][o] == t[l][i][o]
    {
      PartsOfEncoded(c, t, layers, n, bs, l, i, o);
    }
    SameTensor(Decoded(c, s, layers, n, bs), t, layers, n, bs);
  }

  lemma SameTensor<V>(a: Tensor<V>, b: Tensor<V>, layers: nat, n: nat, bs: nat)
    requires TensorShape(a, layers, n, bs) && TensorShape(b, layers, n, bs)
    requires forall l, i, o :: 0 <= l < layers && 0 <= i < n && 0 <= o < bs ==> a[l][i][o] == b[l][i][o]
    ensures a == b
  {
    forall l | 0 <= l < layers
      ensures a[l] == b[l]
    {
      forall i | 0 <= i < n
        ensures a[l][i] == b[l][i]
      {
      }
    }
  }

  /** Two payloads of the right size with the same parts are the same. */
  lemma SameParts<V>(c: Codec<V>, a: Str, b: Str, layers: nat, n: nat, bs: nat)
    requires |a| == |b| == WireBytes(c, layers, n, bs)
    requires forall l, h, i, o :: 0 <= l < layers && 0 <= h < c.heads && 0 <= i < n && 0 <= o < bs ==>
      Part(c, a, layers, n, bs, l, h, i, o) == Part(c, b, layers, n, bs, l, h, i, o)
    ensures a == b
  {
    forall l | 0 <= l < layers
      ensures Piece(a, l, layers, LayerBytes(c, n, bs)) == Piece(b, l, layers, LayerBytes(c, n, bs))
    {
      var x, y := Piece(a, l, layers, LayerBytes(c, n, bs)), Piece(b, l, layers, LayerBytes(c, n, bs));
      forall h, i, o | 0 <= h < c.heads && 0 <= i < n && 0 <= o < bs
        ensures InLayer(c, x, n, bs, h, i, o) == InLayer(c, y, n, bs, h, i, o)
      {
        assert Part(c, a, layers, n, bs, l, h, i, o) == Part(c, b, layers, n, bs, l, h, i, o);
      }
      SameLayer(c, x, y, n, bs);
    }
    SamePieces(a, b, layers, LayerBytes(c, n, bs));
  }

  lemma SameLayer<V>(c: Codec<V>, a: Str, b: Str, n: nat, bs: nat)
    requires |a| == |b| == LayerBytes(c, n, bs)
    requires forall h, i, o :: 0 <= h < c.heads && 0 <= i < n && 0 <= o < bs ==> InLayer(c, a, n, bs, h, i, o) == InLayer(c, b, n, bs, h, i, o)
    ensures a == b
  {
    forall h | 0 <= h < c.heads
      ensures Piece(a, h, c.heads, HeadBytes(c, n, bs)) == Piece(b, h, c.heads, HeadBytes(c, n, bs))
    {
      var x, y := Piece(a, h, c.heads, HeadBytes(c, n, bs)), Piece(b, h, c.heads, HeadBytes(c, n, bs));
      forall i, o | 0 <= i < n && 0 <= o < bs
        ensures InHead(c, x, n, bs, i, o) == InHead(c, y, n, bs, i, o)
      {
        assert InLayer(c, a, n, bs, h, i, o) == InLayer(c, b, n, bs, h, i, o);
      }
      SameHead(c, x, y, n, bs);
    }
    SamePieces(a, b, c.heads, HeadBytes(c, n, bs));
  }

  lemma SameHead<V>(c: Codec<V>, a: Str, b: Str, n: nat, bs: nat)
    requires |a| == |b| == HeadBytes(c, n, bs)
    requires forall i, o :: 0 <= i < n && 0 <= o < bs ==> InHead(c, a, n, bs, i, o) == InHead(c, b, n, bs, i, o)
    ensures a == b
  {
    forall i | 0 <= i < n
      ensures Piece(a, i, n, BlockBytes(c, bs)) == Piece(b, i, n, BlockBytes(c, bs))
    {
      forall o | 0 <= o < bs
        ensures Piece(Piece(a, i, n, BlockBytes(c, bs)), o, bs, c.headBytes) == Piece(Piece(b, i, n, BlockBytes(c, bs)), o, bs, c.headBytes)
      {
        assert InHead(c, a, n, bs, i, o) == InHead(c, b, n, bs, i, o);
      }
      SamePieces(Piece(a, i, n, BlockBytes(c, bs)), Piece(b, i, n, BlockBytes(c, bs)), bs, c.headBytes);
    }
    SamePieces(a, b, n, BlockBytes(c, bs));
  }

  lemma SamePieces(a: Str, b: Str, n: nat, width: nat)
    requires |a| == |b| == Span(n, width)
    requires forall k :: 0 <= k < n ==> Piece(a, k, n, width) == Piece(b, k, n, width)
    ensures a == b
  {
    ConcatOfPieces(a, n, width);
    ConcatOfPieces(b, n, width);
    assert Pieces(a, n, width) == Pieces(b, n, width);
  }

  /** Every payload of the right size is the encoding of what is read from it: no bytes are lost or ignored. */
  lemma EncodeDecode<V(!new)>(c: Codec<V>, s: Str, layers: nat, n: nat, bs: nat)
    requires Faithful(c) && |s| == WireBytes(c, layers, n, bs)
    ensures Encoded(c, Decoded(c, s, layers, n, bs), layers, n, bs) == s
  {
    var t := Decoded(c, s, layers, n, bs);
    var again := Encoded(c, t, layers, n, bs);
    forall l, h, i, o | 0 <= l < layers && 0 <= h < c.heads && 0 <= i < n && 0 <= o < bs
      ensures Part(c, again, layers, n, bs, l, h, i, o) == Part(c, s, layers, n, bs, l, h, i, o)
    {
      PartOfEncoded(c, t, layers, n, bs, l, h, i, o);
      assert c.split(t[l][i][o]) == Parts(c, s, layers, n, bs, l, i, o);
    }
    SameParts(c, again, s, layers, n, bs);
  }

  // ---------------------------------------------------------------- sizes and positions

  /** payload_bytes is a product. */
  lemma WireSize<V>(c: Codec<V>, layers: nat, n: nat, bs: nat)
    ensures WireBytes(c, layers, n, bs) == layers * c.heads * n * bs * c.headBytes
  {
    SpanIsProduct(bs, c.headBytes);
    SpanIsProduct(n, BlockBytes(c, bs));
    SpanIsProduct(c.heads, HeadBytes(c, n, bs));
    SpanIsProduct(layers, LayerBytes(c, n, bs));
    Reassociated(layers, c.heads, n, bs, c.headBytes);
  }

  lemma Reassociated(a: nat, b: nat, c: nat, d: nat, e: nat)
    ensures a * (b * (c * (d * e))) == a * b * c * d * e
  {
    assert a * (b * (c * (d * e))) == a * b * (c * (d * e));
    Associative(a * b, c, d * e);
    Associative(a * b * c, d, e);
  }

  lemma Associative(x: nat, y: nat, z: nat)
    ensures x * (y * z) == x * y * z
  {
  }

  predicate Holds(s: Str, at: nat, part: Str) {
    at + |part| <= |s| && s[at..at + |part|] == part
  }

  lemma PieceHeld(s: Str, k: nat, n: nat, width: nat)
    requires k < n && |s| == Span(n, width)
    ensures Holds(s, Span(k, width), Piece(s, k, n, width))
  {
    SpanMonotone(k + 1, n, width);
  }

  lemma HeldWithin(outer: Str, at: nat, inner: Str, from: nat, part: Str)
    requires Holds(outer, at, inner) && Holds(inner, from, part)
    ensures Holds(outer, at + from, part)
  {
    var start, end := at + from, at + from + |part|;
    forall k | 0 <= k < |part|
      ensures outer[start..end][k] == part[k]
    {
      assert outer[at..at + |inner|][from + k] == inner[from + k] && inner[from..from + |part|][k] == part[k];
    }
  }

  lemma HeldInHead<V>(c: Codec<V>, head: Str, n: nat, bs: nat, i: nat, o: nat)
    requires |head| == HeadBytes(c, n, bs) && i < n && o < bs
    ensures Holds(head, Span(i, BlockBytes(c, bs)) + Span(o, c.headBytes), InHead(c, head, n, bs, i, o))
  {
    var block := Piece(head, i, n, BlockBytes(c, bs));
    PieceHeld(head, i, n, BlockBytes(c, bs));
    PieceHeld(block, o, bs, c.headBytes);
    HeldWithin(head, Span(i, BlockBytes(c, bs)), block, Span(o, c.headBytes), Piece(block, o, bs, c.headBytes));
  }

  lemma HeldInLayer<V>(c: Codec<V>, layer: Str, n: nat, bs: nat, h: nat, i: nat, o: nat)
    requires |layer| == LayerBytes(c, n, bs) && h < c.heads && i < n && o < bs
    ensures Holds(layer, Span(h, HeadBytes(c, n, bs)) + (Span(i, BlockBytes(c, bs)) + Span(o, c.headBytes)), InLayer(c, layer, n, bs, h, i, o))
  {
    var head := Piece(layer, h, c.heads, HeadBytes(c, n, bs));
    PieceHeld(layer, h, c.heads, HeadBytes(c, n, bs));
    HeldInHead(c, head, n, bs, i, o);
    HeldWithin(layer, Span(h, HeadBytes(c, n, bs)), head, Span(i, BlockBytes(c, bs)) + Span(o, c.headBytes), InHead(c, head, n, bs, i, o));
  }

  /** The layout is row-major: a head's vector starts after all earlier layers, heads, blocks and offsets. */
  lemma PartPosition<V>(c: Codec<V>, s: Str, layers: nat, n: nat, bs: nat, l: nat, h: nat, i: nat, o: nat)
    requires |s| == WireBytes(c, layers, n, bs) && l < layers && h < c.heads && i < n && o < bs
    ensures Holds(s, Span(l, LayerBytes(c, n, bs)) + (Span(h, HeadBytes(c, n, bs)) + (Span(i, BlockBytes(c, bs)) + Span(o, c.headBytes))),
                  Part(c, s, layers, n, bs, l, h, i, o))
  {
    var layer := Piece(s, l, layers, LayerBytes(c, n, bs));
    PieceHeld(s, l, layers, LayerBytes(c, n, bs));
    HeldInLayer(c, layer, n, bs, h, i, o);
    HeldWithin(s, Span(l, LayerBytes(c, n, bs)), layer,
               Span(h, HeadBytes(c, n, bs)) + (Span(i, BlockBytes(c, bs)) + Span(o, c.headBytes)), InLayer(c, layer, n, bs, h, i, o));
  }
}
