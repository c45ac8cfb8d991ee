/**
 * ErroredFrameConsumer (plugins/ErroredFrameConsumer.cpp): a DummyConsumer
 * of WIB frames whose `packet_callback` adds the number of error bits in
 * each frame's WIB header to a running count.
 */
module ErroredFrameConsumers {

  /** The 16-bit `wib_errors` field of the WIB header. */
  newtype Word16 = x: int | 0 <= x < 0x1_0000

  /** A WIB frame; only the header field the callback reads is kept. */
  datatype WibFrame = WibFrame(wibErrors: Word16)

  function Pow2(n: nat): (r: nat)
    ensures r >= 1
  {
    if n == 0 then 1 else 2 * Pow2(n - 1)
  }

  /** A 16-bit word is below 2 to the 16th. */
  lemma Pow2Of16()
    ensures Pow2(16) == 0x1_0000
  {
    assert Pow2(4) == 16;
    assert Pow2(8) == 256 by { assert Pow2(5) == 32 && Pow2(6) == 64 && Pow2(7) == 128; }
    assert Pow2(12) == 4096 by { assert Pow2(9) == 512 && Pow2(10) == 1024 && Pow2(11) == 2048; }
    assert Pow2(15) == 32768 by { assert Pow2(13) == 8192 && Pow2(14) == 16384; }
  }

  /** The number of set bits among the low `width` bits of `x`. */
  function PopCount(x: nat, width: nat): (r: nat)
    ensures r <= width
  {
    if width == 0 then 0 else x % 2 + PopCount(x / 2, width - 1)
  }

  /** A value that fits in `width` bits has no set bit exactly when it is zero. */
  lemma {:induction false} PopCountZeroIff(x: nat, width: nat)
    requires x < Pow2(width)
    ensures PopCount(x, width) == 0 <==> x == 0
    decreases width
  {
    if width > 0 {
      PopCountZeroIff(x / 2, width - 1);
    }
  }

  /** Every bit of a width-bit value of all ones is set. */
  lemma {:induction false} PopCountAllOnes(width: nat)
    ensures PopCount(Pow2(width) - 1, width) == width
    decreases width
  {
    if width > 0 {
      assert (Pow2(width) - 1) / 2 == Pow2(width - 1) - 1;
      PopCountAllOnes(width - 1);
    }
  }

  /** `std::bitset<16>(wib_errors).count()`: between 0 and 16, and 0 exactly for an error-free header. */
  function ErrorBits(w: Word16): (n: nat)
    ensures n <= 16
    ensures n == 0 <==> w == 0
  {
    Pow2Of16();
    PopCountZeroIff(w as nat, 16);
    PopCount(w as nat, 16)
  }

  /** A header with all sixteen error bits set adds the most, 16. */
  lemma AllErrorBits()
    ensures ErrorBits(0xFFFF) == 16
  {
    Pow2Of16();
    PopCountAllOnes(16);
  }

  /** The error bits of a sequence of frames, added up in order. */
  function ErrorsIn(packets: seq<WibFrame>): (n: nat)
    ensures n <= 16 * |packets|
  {
    if packets == [] then 0 else ErrorBits(packets[0].wibErrors) + ErrorsIn(packets[1..])
  }

  /** The count over two runs of frames is the sum of the counts. */
  lemma {:induction false} ErrorsInAppend(a: seq<WibFrame>, b: seq<WibFrame>)
    ensures ErrorsIn(a + b) == ErrorsIn(a) + ErrorsIn(b)
    decreases |a|
  {
    if a == [] {
      assert a + b == b;
    } else {
      assert (a + b)[0] == a[0] && (a + b)[1..] == a[1..] + b;
      ErrorsInAppend(a[1..], b);
    }
  }

  /** Frames add nothing to the count exactly when none of them reports an error. */
  lemma {:induction false} ErrorsInZeroIff(packets: seq<WibFrame>)
    ensures ErrorsIn(packets) == 0 <==> forall p :: p in packets ==> p.wibErrors == 0
    decreases |packets|
  {
    if packets != [] {
      ErrorsInZeroIff(packets[1..]);
      assert forall p :: p in packets <==> p == packets[0] || p in packets[1..];
    }
  }

  class ErroredFrameConsumer {
    const name: string
    var errorCount: int   // m_error_count, left uninitialised by the constructor

    constructor (name: string)
      ensures this.name == name
    {
      this.name := name;
    }

    /**
     * `packet_callback`: a frame whose header reports errors adds their
     * number to the count; the frame itself is not changed.
     */
    method PacketCallback(packet: WibFrame)
      modifies this`errorCount
      ensures errorCount == old(errorCount) + ErrorBits(packet.wibErrors)
      ensures old(errorCount) <= errorCount <= old(errorCount) + 16
    {
      if packet.wibErrors != 0 {
        errorCount := errorCount + ErrorBits(packet.wibErrors);
      }
    }

    /**
     * The callbacks of one run of the inherited `do_work`, which hands each
     * delivered frame to `packet_callback` in order (see
     * DummyConsumers.DummyConsumer.DoWork).
     */
    method Callbacks(packets: seq<WibFrame>)
      modifies this`errorCount
      ensures errorCount == old(errorCount) + ErrorsIn(packets)
    {
      var i := 0;
      while i < |packets|
        invariant 0 <= i <= |packets|
        invariant errorCount == old(errorCount) + ErrorsIn(packets[..i])
      {
        ErrorsInAppend(packets[..i], [packets[i]]);
        assert packets[..i + 1] == packets[..i] + [packets[i]];
        PacketCallback(packets[i]);
        i := i + 1;
      }
      assert packets[..i] == packets;
    }
  }
}
