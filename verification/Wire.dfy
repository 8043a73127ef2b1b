/** Length-prefixed framing, `pubsub/transport/wire.py`. Frame bodies are opaque bytes. */
module Wire {
  import opened Common

  newtype byte = x: int | 0 <= x < 256

  const MAX_FRAME_BYTES: nat := 8 * 1024 * 1024
  const LENGTH_BYTES: nat := 4

  datatype WireError = TooLarge | Oversize | Incomplete

  // ---- The length prefix -------------------------------------------------------------------

  /** `n.to_bytes(4, "big")`. */
  function BigEndian(n: nat): (bytes: seq<byte>)
    requires n < 0x1_0000_0000
    ensures |bytes| == LENGTH_BYTES
  {
    [(n / 0x100_0000) as byte, (n / 0x1_0000 % 0x100) as byte, (n / 0x100 % 0x100) as byte, (n % 0x100) as byte]
  }

  /** `int.from_bytes(bytes, "big")`. */
  function FromBigEndian(bytes: seq<byte>): nat {
    if bytes == [] then 0 else 256 * FromBigEndian(bytes[..|bytes| - 1]) + bytes[|bytes| - 1] as nat
  }

  lemma FromFour(b: seq<byte>)
    requires |b| == 4
    ensures FromBigEndian(b) ==
      0x100_0000 * b[0] as nat + 0x1_0000 * b[1] as nat + 0x100 * b[2] as nat + b[3] as nat
  {
    var b3, b2, b1 := b[..3], b[..2], b[..1];
    assert b3[..|b3| - 1] == b2 && b2[..|b2| - 1] == b1 && b1[..|b1| - 1] == [];
    assert FromBigEndian(b1) == b[0] as nat;
    assert FromBigEndian(b2) == 256 * FromBigEndian(b1) + b[1] as nat;
    assert FromBigEndian(b3) == 256 * FromBigEndian(b2) + b[2] as nat;
    assert FromBigEndian(b) == 256 * FromBigEndian(b3) + b[3] as nat;
  }

  /** Four bytes, the most significant one first. */
  lemma PrefixMeans(n: nat)
    requires n < 0x1_0000_0000
    ensures
      var b := BigEndian(n);
      |b| == 4 && n == 0x100_0000 * b[0] as nat + 0x1_0000 * b[1] as nat + 0x100 * b[2] as nat + b[3] as nat
  {
    Digits(n);
  }

  lemma PrefixRoundTrip(n: nat)
    requires n < 0x1_0000_0000
    ensures FromBigEndian(BigEndian(n)) == n
  {
    FromFour(BigEndian(n));
    Digits(n);
  }

  lemma Digits(n: nat)
    ensures n == 0x100 * (n / 0x100) + n % 0x100
    ensures n / 0x100 == 0x100 * (n / 0x1_0000) + n / 0x100 % 0x100
    ensures n / 0x1_0000 == 0x100 * (n / 0x100_0000) + n / 0x1_0000 % 0x100
  {
  }

  // ---- One frame ---------------------------------------------------------------------------

  function EncodeFrame(body: seq<byte>): Result<seq<byte>, WireError> {
    if |body| > MAX_FRAME_BYTES then Err(TooLarge) else Ok(BigEndian(|body|) + body)
  }

  /** What `read_frame` makes of the bytes that are left, and how many of them it consumes. A short
      read consumes what there is. */
  function FrameAt(rest: seq<byte>): (Result<seq<byte>, WireError>, nat) {
    if |rest| < LENGTH_BYTES then (Err(Incomplete), |rest|)
    else
      var size := FromBigEndian(rest[..LENGTH_BYTES]);
      if size > MAX_FRAME_BYTES then (Err(Oversize), LENGTH_BYTES)
      else if |rest| < LENGTH_BYTES + size then (Err(Incomplete), |rest|)
      else (Ok(rest[LENGTH_BYTES..LENGTH_BYTES + size]), LENGTH_BYTES + size)
  }

  /** `asyncio.StreamReader` at the end of its input. */
  class StreamReader {
    const stream: seq<byte>
    var pos: nat

    ghost predicate Valid()
      reads this
    {
      pos <= |stream|
    }

    constructor (stream: seq<byte>)
      ensures Valid() && this.stream == stream && pos == 0
    {
      this.stream := stream;
      pos := 0;
    }

    method ReadExactly(n: nat) returns (r: Result<seq<byte>, WireError>)
      requires Valid()
      modifies this
      ensures Valid()
      ensures r.Ok? <==> old(pos) + n <= |stream|
      ensures r.Ok? ==> r.value == stream[old(pos)..old(pos) + n] && pos == old(pos) + n
      ensures r.Err? ==> r.error == Incomplete && pos == |stream|
    {
      if |stream| - pos < n {
        pos := |stream|;
        return Err(Incomplete);
      }
      r := Ok(stream[pos..pos + n]);
      pos := pos + n;
    }

    method ReadFrame() returns (r: Result<seq<byte>, WireError>)
      requires Valid()
      modifies this
      ensures Valid() && (r, pos - old(pos)) == FrameAt(stream[old(pos)..])
    {
      ghost var rest := stream[pos..];
      var header := ReadExactly(LENGTH_BYTES);
      if header.Err? {
        return header;
      }
      assert header.value == rest[..LENGTH_BYTES];
      var size := FromBigEndian(header.value);
      if size > MAX_FRAME_BYTES {
        return Err(Oversize);
      }
      r := ReadExactly(size);
      assert r.Ok? ==> r.value == rest[LENGTH_BYTES..LENGTH_BYTES + size];
    }

    /** The client's read loop: frames until the first one that cannot be read. */
    method ReadFrames() returns (frames: seq<seq<byte>>, error: WireError)
      requires Valid()
      modifies this
      ensures Valid() && (frames, error) == Frames(stream[old(pos)..])
      ensures var whole := Whole(stream[old(pos)..]);
        pos == old(pos) + whole + FrameAt(stream[old(pos) + whole..]).1
      ensures error == Incomplete ==> pos == |stream|
    {
      frames := [];
      while true
        invariant Valid() && old(pos) <= pos
        invariant pos + Whole(stream[pos..]) == old(pos) + Whole(stream[old(pos)..])
        invariant frames + Frames(stream[pos..]).0 == Frames(stream[old(pos)..]).0
        invariant Frames(stream[pos..]).1 == Frames(stream[old(pos)..]).1
        decreases |stream| - pos
      {
        ghost var rest := stream[pos..];
        FrameAdvances(rest);
        var r := ReadFrame();
        if r.Err? {
          assert Whole(rest) == 0;
          assert frames + [] == frames;
          return frames, r.error;
        }
        assert stream[pos..] == rest[FrameAt(rest).1..];
        assert frames + ([r.value] + Frames(stream[pos..]).0) == (frames + [r.value]) + Frames(stream[pos..]).0;
        frames := frames + [r.value];
      }
    }
  }

  lemma FrameAdvances(rest: seq<byte>)
    ensures FrameAt(rest).1 <= |rest|
    ensures FrameAt(rest).0.Ok? ==> FrameAt(rest).1 >= LENGTH_BYTES
  {
  }

  /** All frames that can be read from `rest`, and why reading stops. */
  function Frames(rest: seq<byte>): (seq<seq<byte>>, WireError)
    decreases |rest|
  {
    FrameAdvances(rest);
    var (r, used) := FrameAt(rest);
    match r
    case Err(error) => ([], error)
    case Ok(body) =>
      var (frames, error) := Frames(rest[used..]);
      ([body] + frames, error)
  }

  /** The bytes of those frames. */
  function Whole(rest: seq<byte>): (n: nat)
    ensures n <= |rest|
    decreases |rest|
  {
    FrameAdvances(rest);
    var (r, used) := FrameAt(rest);
    if r.Err? then 0 else used + Whole(rest[used..])
  }

  /** Up to 8 MiB a body goes out as it is behind its length, the most significant byte first; a larger one
      is refused. */
  lemma EncodedFrame(body: seq<byte>)
    ensures EncodeFrame(body).Ok? <==> |body| <= 8388608
    ensures EncodeFrame(body).Ok? ==>
      var frame := EncodeFrame(body).value;
      && |frame| == 4 + |body| && frame[4..] == body
      && |body| ==
           0x100_0000 * frame[0] as nat + 0x1_0000 * frame[1] as nat + 0x100 * frame[2] as nat + frame[3] as nat
  {
    if EncodeFrame(body).Ok? {
      PrefixMeans(|body|);
    }
  }

  // ---- Round trip --------------------------------------------------------------------------

  predicate Sendable(bodies: seq<seq<byte>>) {
    forall body <- bodies :: |body| <= MAX_FRAME_BYTES
  }

  function EncodeAll(bodies: seq<seq<byte>>): seq<byte>
    requires Sendable(bodies)
  {
    if bodies == [] then []
    else
      assert bodies[0] in bodies;
      EncodeFrame(bodies[0]).value + EncodeAll(bodies[1..])
  }

  /** How many of the frames lie wholly within the first `k` bytes. */
  function WholeFrames(bodies: seq<seq<byte>>, k: nat): (n: nat)
    ensures n <= |bodies|
  {
    if bodies == [] || k < LENGTH_BYTES + |bodies[0]| then 0
    else 1 + WholeFrames(bodies[1..], k - LENGTH_BYTES - |bodies[0]|)
  }

  /** Every size the encoder accepts the reader accepts, whatever follows the frame. */
  lemma FrameRoundTrip(body: seq<byte>, more: seq<byte>)
    requires EncodeFrame(body).Ok?
    ensures FrameAt(EncodeFrame(body).value + more) == (Ok(body), LENGTH_BYTES + |body|)
  {
    var rest := EncodeFrame(body).value + more;
    assert rest[..LENGTH_BYTES] == BigEndian(|body|);
    PrefixRoundTrip(|body|);
    assert rest[LENGTH_BYTES..LENGTH_BYTES + |body|] == body;
  }

  lemma CutFrame(body: seq<byte>, more: seq<byte>, k: nat)
    requires EncodeFrame(body).Ok? && k < LENGTH_BYTES + |body|
    ensures k <= |EncodeFrame(body).value + more|
    ensures FrameAt((EncodeFrame(body).value + more)[..k]) == (Err(Incomplete), k)
  {
    var cut := (EncodeFrame(body).value + more)[..k];
    if k >= LENGTH_BYTES {
      assert cut[..LENGTH_BYTES] == BigEndian(|body|);
      PrefixRoundTrip(|body|);
    }
  }

  lemma CutStream(body: seq<byte>, more: seq<byte>, k: nat)
    requires EncodeFrame(body).Ok? && k < LENGTH_BYTES + |body|
    ensures k <= |EncodeFrame(body).value + more|
    ensures Frames((EncodeFrame(body).value + more)[..k]) == ([], Incomplete)
  {
    hide FrameAt, EncodeFrame;
    CutFrame(body, more, k);
  }

  lemma FirstThenRest(body: seq<byte>, more: seq<byte>)
    requires EncodeFrame(body).Ok?
    ensures Frames(EncodeFrame(body).value + more) == ([body] + Frames(more).0, Frames(more).1)
  {
    FrameRoundTrip(body, more);
    assert (EncodeFrame(body).value + more)[LENGTH_BYTES + |body|..] == more;
  }

  lemma CutLater(body: seq<byte>, more: seq<byte>, k: nat)
    requires EncodeFrame(body).Ok? && k <= |more|
    ensures LENGTH_BYTES + |body| + k <= |EncodeFrame(body).value + more|
    ensures Frames((EncodeFrame(body).value + more)[..LENGTH_BYTES + |body| + k]) ==
            ([body] + Frames(more[..k]).0, Frames(more[..k]).1)
  {
    FirstThenRest(body, more[..k]);
    assert (EncodeFrame(body).value + more)[..LENGTH_BYTES + |body| + k] == EncodeFrame(body).value + more[..k];
  }

  lemma TakeMore(body: seq<byte>, rest: seq<seq<byte>>, n: nat)
    requires n <= |rest|
    ensures ([body] + rest)[..n + 1] == [body] + rest[..n]
  {
  }

  /** One more frame in front. */
  lemma FrameBefore(body: seq<byte>, more: seq<byte>, k: nat, rest: seq<seq<byte>>, n: nat)
    requires EncodeFrame(body).Ok? && k <= |more| && n <= |rest| && Frames(more[..k]) == (rest[..n], Incomplete)
    ensures LENGTH_BYTES + |body| + k <= |EncodeFrame(body).value + more|
    ensures Frames((EncodeFrame(body).value + more)[..LENGTH_BYTES + |body| + k]) == (([body] + rest)[..n + 1],
        Incomplete)
  {
    hide Frames, EncodeFrame;
    CutLater(body, more, k);
    TakeMore(body, rest, n);
  }

  lemma AllFirst(bodies: seq<seq<byte>>)
    requires Sendable(bodies) && bodies != []
    ensures EncodeFrame(bodies[0]).Ok? && Sendable(bodies[1..]) && bodies == [bodies[0]] + bodies[1..]
    ensures EncodeAll(bodies) == EncodeFrame(bodies[0]).value + EncodeAll(bodies[1..])
    ensures |EncodeFrame(bodies[0]).value| == LENGTH_BYTES + |bodies[0]|
  {
    assert bodies[0] in bodies;
  }

  /** Reading any prefix of a stream of encoded bodies yields exactly the bodies whose frames lie within
      the prefix, in order, and then reports an incomplete read. */
  lemma {:induction false} PrefixYieldsWholeFrames(bodies: seq<seq<byte>>, k: nat)
    requires Sendable(bodies) && k <= |EncodeAll(bodies)|
    ensures Frames(EncodeAll(bodies)[..k]) == (bodies[..WholeFrames(bodies, k)], Incomplete)
  {
    hide Frames, EncodeFrame, EncodeAll, Sendable, WholeFrames;
    if bodies == [] {
      PrefixOfNothing(k);
    } else {
      AllFirst(bodies);
      var body, rest := bodies[0], bodies[1..];
      WholeFirst(bodies, k);
      if k < LENGTH_BYTES + |body| {
        CutStream(body, EncodeAll(rest), k);
      } else {
        var left := k - LENGTH_BYTES - |body|;
        PrefixYieldsWholeFrames(rest, left);
        FrameBefore(body, EncodeAll(rest), left, rest, WholeFrames(rest, left));
      }
    }
  }

  lemma PrefixOfNothing(k: nat)
    requires k <= |EncodeAll([])|
    ensures Frames(EncodeAll([])[..k]) == ([], Incomplete) && WholeFrames([], k) == 0
  {
    assert EncodeAll([])[..k] == [];
  }

  lemma WholeFirst(bodies: seq<seq<byte>>, k: nat)
    requires bodies != []
    ensures WholeFrames(bodies, k) ==
      if k < LENGTH_BYTES + |bodies[0]| then 0 else 1 + WholeFrames(bodies[1..], k - LENGTH_BYTES - |bodies[0]|)
  {
  }

  lemma {:induction false} AllWhole(bodies: seq<seq<byte>>)
    requires Sendable(bodies)
    ensures WholeFrames(bodies, |EncodeAll(bodies)|) == |bodies|
  {
    if bodies != [] {
      assert bodies[0] in bodies;
      AllWhole(bodies[1..]);
    }
  }

  lemma WholeThenRest(body: seq<byte>, more: seq<byte>)
    requires EncodeFrame(body).Ok?
    ensures Whole(EncodeFrame(body).value + more) == LENGTH_BYTES + |body| + Whole(more)
  {
    FrameRoundTrip(body, more);
    assert (EncodeFrame(body).value + more)[LENGTH_BYTES + |body|..] == more;
  }

  lemma {:induction false} AllConsumed(bodies: seq<seq<byte>>)
    requires Sendable(bodies)
    ensures Whole(EncodeAll(bodies)) == |EncodeAll(bodies)|
  {
    if bodies != [] {
      AllFirst(bodies);
      hide Whole, EncodeFrame, EncodeAll, Sendable;
      AllConsumed(bodies[1..]);
      WholeThenRest(bodies[0], EncodeAll(bodies[1..]));
    }
  }

  /** The whole stream yields exactly the list; the frames take up every byte, and reading stops only
      because no byte is left. */
  lemma RoundTrip(bodies: seq<seq<byte>>)
    requires Sendable(bodies)
    ensures Frames(EncodeAll(bodies)) == (bodies, Incomplete)
    ensures Whole(EncodeAll(bodies)) == |EncodeAll(bodies)|
  {
    AllConsumed(bodies);
    AllWhole(bodies);
    PrefixYieldsWholeFrames(bodies, |EncodeAll(bodies)|);
    assert EncodeAll(bodies)[..|EncodeAll(bodies)|] == EncodeAll(bodies);
    assert bodies[..|bodies|] == bodies;
  }

  /** A declared size above the cap is refused after the prefix, before any body byte is read. */
  lemma OversizeReadsNoBody(size: nat, more: seq<byte>)
    requires MAX_FRAME_BYTES < size < 0x1_0000_0000
    ensures FrameAt(BigEndian(size) + more) == (Err(Oversize), LENGTH_BYTES)
  {
    assert (BigEndian(size) + more)[..LENGTH_BYTES] == BigEndian(size);
    PrefixRoundTrip(size);
  }
}
