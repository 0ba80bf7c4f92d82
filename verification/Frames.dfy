/** Length-prefixed framing over a byte buffer that is filled in arbitrary pieces. */
module Frames {
  import opened Basics

  newtype byte = x: int | 0 <= x < 256

  type Bytes = seq<byte>

  const MAX: nat := 0x1_0000_0000

  function BigEndian(n: nat): (b: Bytes)
    requires n < MAX
    ensures |b| == 4
  {
    [ (n / 0x100_0000) as byte, (n / 0x1_0000 % 256) as byte, (n / 256 % 256) as byte, (n % 256) as byte ]
  }

  function FromBigEndian(b: Bytes): (n: nat)
    requires |b| >= 4
    ensures n < MAX
  {
    b[0] as int * 0x100_0000 + b[1] as int * 0x1_0000 + b[2] as int * 256 + b[3] as int
  }

  lemma PrefixRoundTrip(n: nat, rest: Bytes)
    requires n < MAX
    ensures FromBigEndian(BigEndian(n) + rest) == n
  {
    var b := BigEndian(n) + rest;
    assert b[..4] == BigEndian(n);
    Digits(n);
  }

  lemma Digits(n: nat)
    requires n < MAX
    ensures n / 0x100_0000 % 256 * 0x100_0000 + n / 0x1_0000 % 256 * 0x1_0000 + n / 256 % 256 * 256 + n % 256 == n
  {
    assert n / 256 / 256 == n / 0x1_0000 && n / 0x1_0000 / 256 == n / 0x100_0000;
  }

  /** The most significant byte comes first: each further byte shifts what came before by eight bits. */
  lemma PrefixIsBigEndian(b: Bytes)
    requires |b| >= 4
    ensures FromBigEndian(b) == ((b[0] as int * 256 + b[1] as int) * 256 + b[2] as int) * 256 + b[3] as int
  {
  }

  lemma PrefixIsCanonical(b: Bytes)
    requires |b| >= 4
    ensures BigEndian(FromBigEndian(b)) == b[..4]
  {
    var n := FromBigEndian(b);
    assert n / 0x100_0000 == b[0] as int;
    assert n / 0x1_0000 == b[0] as int * 256 + b[1] as int;
    assert n / 256 == b[0] as int * 0x1_0000 + b[1] as int * 256 + b[2] as int;
  }

  /** The cast of a length to 32 bits. */
  function Cast32(n: nat): (r: nat)
    ensures r < MAX
    ensures r == n <==> n < MAX
  {
    n % MAX
  }

  /** The length is cast to 32 bits, so it wraps for payloads that are too long. */
  function Frame(payload: Bytes): Bytes {
    BigEndian(Cast32(|payload|)) + payload
  }

  function FramesOf(payloads: seq<Bytes>): Bytes {
    if payloads == [] then [] else Frame(payloads[0]) + FramesOf(payloads[1..])
  }

  predicate Complete(buf: Bytes) {
    |buf| >= 4 && |buf| >= 4 + FromBigEndian(buf)
  }

  /** All frames at the front of the buffer, and what is left. */
  function Drain(buf: Bytes): (r: (seq<Bytes>, Bytes))
    decreases |buf|
  {
    if !Complete(buf) then ([], buf)
    else
      var end := 4 + FromBigEndian(buf);
      var (more, rest) := Drain(buf[end..]);
      ([buf[4..end]] + more, rest)
  }

  // ---------- The codec in place ----------

  /** Frames already taken, then those still to come. */
  function DrainFrom(frames: seq<Bytes>, buf: Bytes): (seq<Bytes>, Bytes) {
    (frames + Drain(buf).0, Drain(buf).1)
  }

  lemma DrainOn(frames: seq<Bytes>, payload: Bytes, rest: Bytes)
    requires |payload| < MAX
    ensures DrainFrom(frames, Frame(payload) + rest) == DrainFrom(frames + [payload], rest)
    ensures |rest| < |Frame(payload) + rest|
  {
    DrainFrame(payload, rest);
    assert frames + ([payload] + Drain(rest).0) == (frames + [payload]) + Drain(rest).0;
  }

  class Codec {
    var buffer: Bytes

    constructor ()
      ensures buffer == []
    {
      buffer := [];
    }

    /** One frame off the front, or nothing and the buffer as it was. */
    method Decode() returns (frame: Option<Bytes>)
      modifies this
      ensures frame.None? <==> !Complete(old(buffer))
      ensures frame.None? ==> buffer == old(buffer)
      ensures frame.Some? ==> |frame.value| < MAX && old(buffer) == Frame(frame.value) + buffer
    {
      if |buffer| < 4 {
        return None;
      }
      var len := FromBigEndian(buffer);
      if |buffer| < 4 + len {
        return None;
      }
      FirstFrame(buffer);
      Slices(buffer, 4 + len);
      buffer := buffer[4..];
      var payload := buffer[..len];
      buffer := buffer[len..];
      frame := Some(payload);
    }

    method Encode(payload: Bytes)
      modifies this
      ensures buffer == old(buffer) + Frame(payload)
    {
      var len := Cast32(|payload|);
      buffer := buffer + BigEndian(len);
      buffer := buffer + payload;
      assert buffer == old(buffer) + Frame(payload);
    }

    /** A chunk arrives; every frame it completes is taken. */
    method Receive(chunk: Bytes) returns (frames: seq<Bytes>)
      modifies this
      ensures (frames, buffer) == Drain(old(buffer) + chunk)
    {
      buffer := buffer + chunk;
      ghost var all := buffer;
      frames := [];
      assert frames + Drain(all).0 == Drain(all).0;
      while true
        invariant Drain(all) == DrainFrom(frames, buffer)
        decreases |buffer|
      {
        var frame := Decode();
        if frame.None? {
          assert frames + [] == frames;
          return;
        }
        DrainOn(frames, frame.value, buffer);
        frames := frames + [frame.value];
      }
    }

    method ReceiveAll(chunks: seq<Bytes>) returns (frames: seq<Bytes>)
      requires buffer == []
      modifies this
      ensures (frames, buffer) == Drain(Joined(chunks))
    {
      frames := [];
      assert Drain([]) == ([], []);
      for i := 0 to |chunks|
        invariant (frames, buffer) == Drain(Joined(chunks[..i]))
      {
        assert chunks[..i + 1][..i] == chunks[..i];
        DrainInPieces(Joined(chunks[..i]), chunks[i]);
        var more := Receive(chunks[i]);
        frames := frames + more;
      }
      assert chunks[..|chunks|] == chunks;
    }
  }

  function Joined(chunks: seq<Bytes>): Bytes {
    if chunks == [] then [] else Joined(chunks[..|chunks| - 1]) + chunks[|chunks| - 1]
  }

  // ---------- Laws ----------

  lemma DrainFrame(payload: Bytes, rest: Bytes)
    requires |payload| < MAX
    ensures Drain(Frame(payload) + rest) == ([payload] + Drain(rest).0, Drain(rest).1)
  {
    var buf, end := Frame(payload) + rest, 4 + |payload|;
    assert FromBigEndian(buf) == |payload| by {
      SmallFrame(payload);
      PrefixRoundTrip(|payload|, payload + rest);
      assert buf == BigEndian(|payload|) + (payload + rest);
    }
    Sliced(BigEndian(Cast32(|payload|)), payload, rest);
  }

  lemma Sliced(prefix: Bytes, payload: Bytes, rest: Bytes)
    requires |prefix| == 4
    ensures var buf := (prefix + payload) + rest;
            buf[4..4 + |payload|] == payload && buf[4 + |payload|..] == rest
  {
  }

  /** For any bytes at all: draining early and going on with the rest is the same as draining once at the end. */
  lemma {:induction false} DrainInPieces(a: Bytes, b: Bytes)
    ensures var (early, rest) := Drain(a);
            var (late, rest') := Drain(rest + b);
            Drain(a + b) == (early + late, rest')
    decreases |a|
  {
    if !Complete(a) {
      assert [] + Drain(a + b).0 == Drain(a + b).0;
    } else {
      var end := 4 + FromBigEndian(a);
      assert FromBigEndian(a + b) == FromBigEndian(a);
      assert (a + b)[4..end] == a[4..end] && (a + b)[end..] == a[end..] + b;
      DrainInPieces(a[end..], b);
      var (late, rest') := Drain(Drain(a[end..]).1 + b);
      assert [a[4..end]] + (Drain(a[end..]).0 + late) == ([a[4..end]] + Drain(a[end..]).0) + late;
    }
  }

  /** No byte is lost or invented: the frames taken and the rest are the bytes that came; the rest holds no frame. */
  lemma {:induction false} DrainIsExact(buf: Bytes)
    ensures FramesOf(Drain(buf).0) + Drain(buf).1 == buf
    ensures !Complete(Drain(buf).1)
    ensures forall i :: 0 <= i < |Drain(buf).0| ==> |Drain(buf).0[i]| < MAX
    decreases |buf|
  {
    if Complete(buf) {
      var end := 4 + FromBigEndian(buf);
      DrainIsExact(buf[end..]);
      var p, more, rest := buf[4..end], Drain(buf[end..]).0, Drain(buf[end..]).1;
      assert Drain(buf).0 == [p] + more && Drain(buf).1 == rest;
      assert FramesOf([p] + more) + rest == buf by {
        FramesCons(p, more);
        FirstFrame(buf);
        assert (Frame(p) + FramesOf(more)) + rest == Frame(p) + (FramesOf(more) + rest);
      }
    }
  }

  lemma FirstFrame(buf: Bytes)
    requires Complete(buf)
    ensures var end := 4 + FromBigEndian(buf);
            Frame(buf[4..end]) == buf[..end] && buf == buf[..end] + buf[end..]
  {
    var end := 4 + FromBigEndian(buf);
    var p := buf[4..end];
    assert Frame(p) == BigEndian(|p|) + p by {
      SmallFrame(p);
    }
    assert BigEndian(|p|) == buf[..4] by {
      PrefixIsCanonical(buf);
    }
    Slices(buf, end);
  }

  lemma SmallFrame(payload: Bytes)
    requires |payload| < MAX
    ensures Frame(payload) == BigEndian(|payload|) + payload
  {
  }

  lemma Slices(buf: Bytes, end: nat)
    requires 4 <= end <= |buf|
    ensures buf[..4] + buf[4..end] == buf[..end] && buf[..end] + buf[end..] == buf
    ensures buf[4..][..end - 4] == buf[4..end] && buf[4..][end - 4..] == buf[end..]
  {
  }

  lemma FramesCons(p: Bytes, more: seq<Bytes>)
    ensures FramesOf([p] + more) == Frame(p) + FramesOf(more)
  {
    assert ([p] + more)[1..] == more;
  }

  lemma {:induction false} DrainFrames(payloads: seq<Bytes>, rest: Bytes)
    requires forall i :: 0 <= i < |payloads| ==> |payloads[i]| < MAX
    requires !Complete(rest)
    ensures Drain(FramesOf(payloads) + rest) == (payloads, rest)
  {
    if payloads == [] {
      assert FramesOf(payloads) + rest == rest;
    } else {
      var p, more := payloads[0], payloads[1..];
      DrainFrames(more, rest);
      DrainFrame(p, FramesOf(more) + rest);
      FramesThen(payloads, rest);
      assert [p] + more == payloads;
    }
  }

  lemma FramesThen(payloads: seq<Bytes>, rest: Bytes)
    requires payloads != []
    ensures FramesOf(payloads) + rest == Frame(payloads[0]) + (FramesOf(payloads[1..]) + rest)
  {
    var f, m := Frame(payloads[0]), FramesOf(payloads[1..]);
    assert (f + m) + rest == f + (m + rest);
  }

  /** However the frames are cut into chunks, the payloads come out, in order, and nothing is left over. */
  lemma ChunkingIndependence(payloads: seq<Bytes>, chunks: seq<Bytes>)
    requires forall i :: 0 <= i < |payloads| ==> |payloads[i]| < MAX
    requires Joined(chunks) == FramesOf(payloads)
    ensures Drain(Joined(chunks)) == (payloads, [])
  {
    DrainFrames(payloads, []);
    assert FramesOf(payloads) + [] == FramesOf(payloads);
  }

  /** How many whole frames fit into the first `k` bytes of the stream. */
  lemma {:induction false} CutStream(payloads: seq<Bytes>, k: nat) returns (m: nat, rest: Bytes)
    requires forall i :: 0 <= i < |payloads| ==> |payloads[i]| < MAX
    requires k <= |FramesOf(payloads)|
    ensures m <= |payloads| && FramesOf(payloads)[..k] == FramesOf(payloads[..m]) + rest
    ensures m == |payloads| ==> rest == []
    ensures m < |payloads| ==> |rest| < |Frame(payloads[m])| && rest == Frame(payloads[m])[..|rest|]
  {
    if payloads == [] {
      m, rest := 0, [];
    } else {
      var first := Frame(payloads[0]);
      if k < |first| {
        m, rest := 0, first[..k];
        assert FramesOf(payloads)[..k] == first[..k];
      } else {
        var n;
        n, rest := CutStream(payloads[1..], k - |first|);
        m := n + 1;
        assert payloads[..m][1..] == payloads[1..][..n];
        assert FramesOf(payloads)[..k] == first + FramesOf(payloads[1..])[..k - |first|];
      }
    }
  }

  lemma PartialIsIncomplete(payload: Bytes, rest: Bytes)
    requires |payload| < MAX && |rest| < |Frame(payload)| && rest == Frame(payload)[..|rest|]
    ensures !Complete(rest)
  {
    if |rest| >= 4 {
      SmallFrame(payload);
      PrefixRoundTrip(|payload|, payload);
      SamePrefix(rest, Frame(payload));
      assert FromBigEndian(rest) == |payload|;
    }
  }

  lemma SamePrefix(a: Bytes, b: Bytes)
    requires 4 <= |a| <= |b| && a == b[..|a|]
    ensures FromBigEndian(a) == FromBigEndian(b)
  {
    assert a[0] == b[0] && a[1] == b[1] && a[2] == b[2] && a[3] == b[3];
  }

  /**
   At any point of the transmission, however it was cut: exactly the payloads whose frames have arrived are out, and
   what is buffered is a proper prefix of the next frame.
   */
  lemma MidStream(payloads: seq<Bytes>, chunks: seq<Bytes>, k: nat) returns (m: nat)
    requires forall i :: 0 <= i < |payloads| ==> |payloads[i]| < MAX
    requires k <= |FramesOf(payloads)| && Joined(chunks) == FramesOf(payloads)[..k]
    ensures m <= |payloads|
    ensures Drain(Joined(chunks)).0 == payloads[..m]
    ensures var rest := Drain(Joined(chunks)).1;
            if m == |payloads| then rest == []
            else |rest| < |Frame(payloads[m])| && rest == Frame(payloads[m])[..|rest|]
  {
    var rest;
    m, rest := CutStream(payloads, k);
    if m < |payloads| {
      PartialIsIncomplete(payloads[m], rest);
    }
    DrainFrames(payloads[..m], rest);
  }

  /** A payload survives framing exactly when its length fits the prefix. */
  lemma RoundTripIff(payload: Bytes)
    ensures Drain(Frame(payload)) == ([payload], []) <==> |payload| < MAX
  {
    if |payload| < MAX {
      DrainFrame(payload, []);
      assert Frame(payload) + [] == Frame(payload);
      assert [payload] + [] == [payload];
    } else {
      DrainIsExact(Frame(payload));
    }
  }
}
