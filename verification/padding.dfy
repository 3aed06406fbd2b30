/** The batch tensor builder: lays a batch of variable-length token encodings
    out as two right-padded, row-major [batchSize, maxSeqLength] buffers, one
    for the token ids and one for the attention mask. */
module Padding {
  import opened Tensors

  /** One tokenized text: its token ids and its attention mask. */
  datatype Encoding = Encoding(ids: seq<int>, attentionMask: seq<int>)

  /** An encoding whose mask covers every id. The builder reads
      attentionMask[i] for every i < |ids|, which fails on a shorter mask. */
  type TokenEncoding = e: Encoding | |e.ids| <= |e.attentionMask| witness Encoding([], [])

  /** The longest id sequence of the batch, scanning left to right and keeping
      the running maximum, which starts at 0. */
  function MaxLen(encs: seq<TokenEncoding>): (m: nat)
    ensures forall b :: 0 <= b < |encs| ==> |encs[b].ids| <= m
    ensures |encs| == 0 ==> m == 0
    ensures |encs| > 0 ==> exists b :: 0 <= b < |encs| && m == |encs[b].ids|
  {
    if |encs| == 0 then 0
    else
      var front := encs[..|encs| - 1];
      var m := MaxLen(front);
      assert forall b :: 0 <= b < |front| ==> front[b] == encs[b];
      if |encs[|encs| - 1].ids| > m then |encs[|encs| - 1].ids| else m
  }

  /** Row of the id buffer for one encoding: its ids, then zeros up to `width`. */
  function IdsRow(e: TokenEncoding, width: nat): seq<int> {
    seq(width, i requires 0 <= i < width => if i < |e.ids| then e.ids[i] else 0)
  }

  /** Row of the mask buffer for one encoding: its mask entries at the id
      positions, then zeros up to `width`. */
  function MaskRow(e: TokenEncoding, width: nat): seq<int> {
    seq(width, i requires 0 <= i < width => if i < |e.ids| then e.attentionMask[i] else 0)
  }

  function IdRows(encs: seq<TokenEncoding>, width: nat): seq<seq<int>> {
    seq(|encs|, b requires 0 <= b < |encs| => IdsRow(encs[b], width))
  }

  function MaskRows(encs: seq<TokenEncoding>, width: nat): seq<seq<int>> {
    seq(|encs|, b requires 0 <= b < |encs| => MaskRow(encs[b], width))
  }

  /** The flat input_ids buffer handed to the engine. */
  function PaddedIds(encs: seq<TokenEncoding>): seq<int> {
    Flatten(IdRows(encs, MaxLen(encs)))
  }

  /** The flat attention_mask buffer handed to the engine. */
  function PaddedMask(encs: seq<TokenEncoding>): seq<int> {
    Flatten(MaskRows(encs, MaxLen(encs)))
  }

  /** Both buffers hold exactly batchSize * maxSeqLength cells. */
  lemma PaddedLength(encs: seq<TokenEncoding>)
    ensures |PaddedIds(encs)| == |encs| * MaxLen(encs)
    ensures |PaddedMask(encs)| == |encs| * MaxLen(encs)
  {
    FlattenLength(IdRows(encs, MaxLen(encs)), MaxLen(encs));
    FlattenLength(MaskRows(encs, MaxLen(encs)), MaxLen(encs));
  }

  /** Cell (b, i), at offset b * maxSeqLength + i, lies inside both buffers.
      Below the item's length it copies the item's id and mask entry; from
      there on both buffers hold 0 (right padding only). */
  lemma PaddedCell(encs: seq<TokenEncoding>, b: nat, i: nat)
    requires b < |encs| && i < MaxLen(encs)
    ensures b * MaxLen(encs) + i < |PaddedIds(encs)| == |PaddedMask(encs)|
    ensures i < |encs[b].ids| ==>
              PaddedIds(encs)[b * MaxLen(encs) + i] == encs[b].ids[i] &&
              PaddedMask(encs)[b * MaxLen(encs) + i] == encs[b].attentionMask[i]
    ensures |encs[b].ids| <= i ==>
              PaddedIds(encs)[b * MaxLen(encs) + i] == 0 &&
              PaddedMask(encs)[b * MaxLen(encs) + i] == 0
  {
    var width := MaxLen(encs);
    PaddedLength(encs);
    FlattenCell(IdRows(encs, width), width, b, i);
    FlattenCell(MaskRows(encs, width), width, b, i);
  }

  /** A one-item batch gets no padding: the id buffer is the item's ids and the
      mask buffer is its mask over those ids. */
  lemma SingleItemUnpadded(e: TokenEncoding)
    ensures MaxLen([e]) == |e.ids|
    ensures PaddedIds([e]) == e.ids
    ensures PaddedMask([e]) == e.attentionMask[..|e.ids|]
  {
    var width := |e.ids|;
    assert MaxLen([e]) == width;
    assert [e][..0] == [];
    assert IdRows([e], width)[..0] == [];
    assert MaskRows([e], width)[..0] == [];
    assert IdsRow(e, width) == e.ids;
    assert MaskRow(e, width) == e.attentionMask[..width];
    assert Flatten(IdRows([e], width)) == Flatten(IdRows([e], width)[..0]) + IdsRow(e, width);
    assert Flatten(MaskRows([e], width)) == Flatten(MaskRows([e], width)[..0]) + MaskRow(e, width);
  }

  /** The first pass of the builder: the running maximum of the id lengths. */
  method MaxSeqLength(encs: seq<TokenEncoding>) returns (maxSeqLength: nat)
    ensures maxSeqLength == MaxLen(encs)
  {
    maxSeqLength := 0;
    for k := 0 to |encs|
      invariant maxSeqLength == MaxLen(encs[..k])
    {
      assert encs[..k + 1][..k] == encs[..k];
      if |encs[k].ids| > maxSeqLength {
        maxSeqLength := |encs[k].ids|;
      }
    }
    assert encs[..|encs|] == encs;
  }

  /** The inner loop of the builder for one batch row: for each of the
      `width` positions, copy the item's id and mask entry below its length
      and write 0 beyond it. */
  method PadRow(e: TokenEncoding, width: nat) returns (ids: seq<int>, mask: seq<int>)
    requires |e.ids| <= width
    ensures |ids| == |mask| == width
    ensures ids[..|e.ids|] == e.ids && mask[..|e.ids|] == e.attentionMask[..|e.ids|]
    ensures forall i :: |e.ids| <= i < width ==> ids[i] == 0 && mask[i] == 0
    ensures ids == IdsRow(e, width) && mask == MaskRow(e, width)
  {
    ids, mask := [], [];
    for i := 0 to width
      invariant ids == IdsRow(e, width)[..i]
      invariant mask == MaskRow(e, width)[..i]
    {
      if i < |e.ids| {
        ids := ids + [e.ids[i]];
        mask := mask + [e.attentionMask[i]];
      } else {
        ids := ids + [0];
        mask := mask + [0];
      }
      assert IdsRow(e, width)[..i + 1] == IdsRow(e, width)[..i] + [IdsRow(e, width)[i]];
      assert MaskRow(e, width)[..i + 1] == MaskRow(e, width)[..i] + [MaskRow(e, width)[i]];
    }
    assert IdsRow(e, width)[..width] == IdsRow(e, width);
    assert MaskRow(e, width)[..width] == MaskRow(e, width);
  }

  /** Builds both buffers the way `ComputeBatchFromEncodings`' loops do: the maximum length first,
      then the rows in batch order, each written cell by cell. */
  method BuildInputs(encs: seq<TokenEncoding>) returns (maxSeqLength: nat, inputIds: seq<int>, attentionMask: seq<int>)
    ensures maxSeqLength == MaxLen(encs)
    ensures inputIds == PaddedIds(encs)
    ensures attentionMask == PaddedMask(encs)
  {
    maxSeqLength := MaxSeqLength(encs);
    ghost var idRows := IdRows(encs, maxSeqLength);
    ghost var maskRows := MaskRows(encs, maxSeqLength);
    inputIds, attentionMask := [], [];
    for b := 0 to |encs|
      invariant inputIds == Flatten(idRows[..b])
      invariant attentionMask == Flatten(maskRows[..b])
    {
      var rowIds, rowMask := PadRow(encs[b], maxSeqLength);
      inputIds := inputIds + rowIds;
      attentionMask := attentionMask + rowMask;
      FlattenSnoc(idRows, b);
      FlattenSnoc(maskRows, b);
    }
    assert idRows[..|encs|] == idRows;
    assert maskRows[..|encs|] == maskRows;
  }
}
