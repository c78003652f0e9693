/** Bodies sent as a list of chunks. */
module Chunks {
  type Bytes = seq<bv8>

  function Concat(chunks: seq<Bytes>): Bytes {
    if chunks == [] then [] else Concat(chunks[..|chunks| - 1]) + chunks[|chunks| - 1]
  }

  lemma ConcatSnoc(chunks: seq<Bytes>, c: Bytes)
    ensures Concat(chunks + [c]) == Concat(chunks) + c
  {
    assert (chunks + [c])[..|chunks|] == chunks;
  }

  /** The bytes of `data` at positions `from` up to but not including `upto`, as far as there are any. */
  function Clip(data: Bytes, from: int, upto: int): Bytes
    decreases upto - from
  {
    if upto <= from then [] else
      Clip(data, from, upto - 1) + if 0 <= upto - 1 < |data| then [data[upto - 1]] else []
  }

  lemma {:induction false} ClipSplit(data: Bytes, from: int, mid: int, upto: int)
    requires from <= mid <= upto
    ensures Clip(data, from, upto) == Clip(data, from, mid) + Clip(data, mid, upto)
    decreases upto - mid
  {
    if mid < upto {
      ClipSplit(data, from, mid, upto - 1);
    }
  }

  lemma {:induction false} ClipInside(data: Bytes, from: int, upto: int)
    requires 0 <= from <= upto <= |data|
    ensures Clip(data, from, upto) == data[from..upto]
    decreases upto - from
  {
    if from < upto {
      ClipInside(data, from, upto - 1);
    }
  }

  lemma {:induction false} ClipBeyond(data: Bytes, from: int, mid: int, upto: int)
    requires |data| <= mid <= upto
    ensures Clip(data, from, mid) == Clip(data, from, upto)
    decreases upto - mid
  {
    if mid < upto {
      ClipBeyond(data, from, mid, upto - 1);
      if upto <= from {
        assert Clip(data, from, mid) == [];
      }
    }
  }

  /** All the bytes asked for are there exactly if the last is. */
  lemma ClipLength(data: Bytes, from: int, upto: int)
    requires 0 <= from < upto || from == upto == 0
    ensures |Clip(data, from, upto)| <= upto - from
    ensures |Clip(data, from, upto)| == upto - from <==> upto <= |data|
  {
    if upto <= |data| {
      ClipInside(data, from, upto);
    } else if |data| <= from {
      ClipBeyond(data, from, from, upto);
    } else {
      ClipBeyond(data, from, |data|, upto);
      ClipInside(data, from, |data|);
    }
  }
}
