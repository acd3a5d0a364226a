/** The outbound cursor and its one-call partial consume (quiche-h3/src/buffer.rs). */
module Buffers {
  import opened Base

  /**
   * h3's `WriteBuf`: an encoded frame header followed by the payload. Only the
   * current contiguous segment is offered to the transport at a time.
   */
  datatype WriteBuf = WriteBuf(header: seq<Byte>, payload: seq<Byte>) {
    function Bytes(): seq<Byte> {
      header + payload
    }

    function Remaining(): nat {
      |header| + |payload|
    }

    function Chunk(): seq<Byte> {
      if header != [] then header else payload
    }

    function Advance(n: nat): WriteBuf
      requires n <= |Chunk()|
    {
      if header != [] then WriteBuf(header[n..], payload) else WriteBuf([], payload[n..])
    }
  }

  /** The bytes offered in one transport call: a bounded prefix of the current segment. */
  function Offer(b: WriteBuf): seq<Byte> {
    b.Chunk()[..Min(|b.Chunk()|, MAX_CHUNK)]
  }

  /** An offer is a prefix of what is left, and is empty only when nothing is left. */
  lemma OfferIsPrefix(b: WriteBuf)
    ensures Offer(b) <= b.Bytes()
    ensures Offer(b) == [] <==> b.Remaining() == 0
    ensures |Offer(b)| == b.Remaining() ==> Offer(b) == b.Bytes()
    ensures |Offer(b)| <= |b.Chunk()|
  {
    assert b.Chunk() <= b.Bytes();
    assert Offer(b) <= b.Bytes();
  }

  /** Advancing across segments consumes exactly the first n bytes of the logical buffer. */
  lemma AdvanceConsumes(b: WriteBuf, n: nat)
    requires n <= |b.Chunk()|
    ensures b.Advance(n).Bytes() == b.Bytes()[n..]
    ensures b.Advance(n).Remaining() == b.Remaining() - n
  {
  }
}
