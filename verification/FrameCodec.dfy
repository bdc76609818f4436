/** The wire form of a frame: an 8-byte big-endian ack, then the payload. */
module FrameCodec {
  import opened Bytes
  import opened Endpoints
  import BigEndian

  const ACK_SIZE := 8
  const LIMIT := 0x1_0000_0000_0000_0000

  function EncodeFrame(f: Frame): seq<Byte> {
    BigEndian.Encode(f.ack, ACK_SIZE) + f.payload
  }

  /** None is a message shorter than its header. */
  function DecodeFrame(msg: seq<Byte>): Option<Frame> {
    if |msg| < ACK_SIZE then None
    else Some(Frame(BigEndian.Decode(msg[..ACK_SIZE]), msg[ACK_SIZE..]))
  }

  /** What the writer sends the reader gets back, for every 64-bit ack and every payload. */
  lemma FrameRoundTrip(f: Frame)
    requires f.ack < LIMIT
    ensures DecodeFrame(EncodeFrame(f)) == Some(f)
  {
    BigEndian.Widths();
    BigEndian.DecodeEncode(f.ack, ACK_SIZE);
    assert EncodeFrame(f)[..ACK_SIZE] == BigEndian.Encode(f.ack, ACK_SIZE);
    assert EncodeFrame(f)[ACK_SIZE..] == f.payload;
  }

  /** The message byte by byte: eight bytes of ack, the most significant first, then the payload. */
  lemma FrameLayout(f: Frame, i: nat)
    requires i < 8
    ensures var msg := EncodeFrame(f);
      && |msg| == 8 + |f.payload| && msg[8..] == f.payload
      && msg[i] == f.ack / BigEndian.Pow256(7 - i) % 256
  {
    BigEndian.Digits(f.ack, 8, i);
  }

  /** Every message that is long enough is the encoding of exactly one frame with a 64-bit ack. */
  lemma FrameUnique(msg: seq<Byte>)
    ensures |msg| >= ACK_SIZE <==> DecodeFrame(msg).Some?
    ensures |msg| >= ACK_SIZE ==>
      EncodeFrame(DecodeFrame(msg).value) == msg && DecodeFrame(msg).value.ack < LIMIT
  {
    if |msg| >= ACK_SIZE {
      BigEndian.Widths();
      BigEndian.EncodeDecode(msg[..ACK_SIZE]);
      assert msg == msg[..ACK_SIZE] + msg[ACK_SIZE..];
    }
  }
}
