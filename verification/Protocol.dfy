/**
 The length-prefixed frames between the host and the speech worker.

 The printer and the incremental parser undo each other: `PcmDecodeEncode` and `PcmEncodeDecode` for the
 body of one frame, `DecoderInvertsEncoder` for a stream of frames cut into arbitrary fragments.
 The JSON of a control frame is read and written by parameters.
 */
module Protocol {
  import opened Bytes
  import opened Text
  import opened Wrappers

  // ---------------------------------------------------------------------------------------------
  // Big-endian numbers

  function Pow256(width: nat): (p: nat)
    ensures p > 0
  {
    if width == 0 then 1 else 256 * Pow256(width - 1)
  }

  function Pack(n: nat, width: nat): (s: seq<byte>)
    ensures |s| == width
  {
    if width == 0 then [] else Pack(n / 256, width - 1) + [(n % 256) as byte]
  }

  function Unpack(s: seq<byte>): nat {
    if s == [] then 0 else Unpack(s[..|s| - 1]) * 256 + s[|s| - 1] as nat
  }

  lemma {:induction false} UnpackPack(n: nat, width: nat)
    requires n < Pow256(width)
    ensures Unpack(Pack(n, width)) == n
  {
    if width > 0 {
      UnpackPack(n / 256, width - 1);
      var s := Pack(n, width);
      assert s[..|s| - 1] == Pack(n / 256, width - 1);
    }
  }

  lemma {:induction false} PackUnpack(s: seq<byte>)
    ensures Unpack(s) < Pow256(|s|) && Pack(Unpack(s), |s|) == s
  {
    if s != [] {
      var init, last := s[..|s| - 1], s[|s| - 1] as nat;
      PackUnpack(init);
      assert Unpack(s) / 256 == Unpack(init) && Unpack(s) % 256 == last;
      assert s == init + [s[|s| - 1]];
    }
  }

  lemma Widths()
    ensures Pow256(2) == 0x1_0000 && Pow256(4) == 0x1_0000_0000 && Pow256(8) == 0x1_0000_0000_0000_0000
  {
    assert Pow256(1) == 256 && Pow256(2) == 0x1_0000 && Pow256(3) == 0x100_0000 && Pow256(4) == 0x1_0000_0000;
    assert Pow256(5) == 0x100_0000_0000 && Pow256(6) == 0x1_0000_0000_0000 && Pow256(7) == 0x100_0000_0000_0000;
  }

  // ---------------------------------------------------------------------------------------------
  // Frames

  const MAX_CONTROL_BYTES := 64 * 1024
  const MAX_PCM_BYTES := 1024 * 1024
  const MAX_FRAME_BYTES := MAX_PCM_BYTES + 64
  const CONTROL_KIND: byte := 1
  const PCM_KIND: byte := 2
  const PREFIX_SIZE := 4
  const PCM_HEADER_SIZE := 18

  datatype PCMChunk = PCMChunk(generation: nat, sampleRate: nat, channels: nat, data: seq<byte>) {
    predicate Valid() {
      && generation < 0x8000_0000_0000_0000
      && 8_000 <= sampleRate <= 192_000
      && 1 <= channels <= 8
      && data != [] && |data| % (2 * channels) == 0
    }
  }

  datatype PCMFrame = PCMFrame(sequence: nat, chunk: PCMChunk)

  datatype Frame<C> = Control(control: C) | PCM(frame: PCMFrame)

  datatype Error =
    | ControlFrameTooLarge | PcmFrameTooLarge | EmptyFrame | UnknownFrameKind
    | InvalidControl | InvalidPcmFrame | InvalidFrameLength | SequenceOutOfRange
    | WorkerEof | TruncatedFrame

  datatype Result<+T> = Ok(value: T) | Err(error: Error)

  function Header(frame: PCMFrame): (h: seq<byte>)
    ensures |h| == PCM_HEADER_SIZE
  {
    Pack(frame.chunk.generation, 8) + Pack(frame.sequence, 4) + Pack(frame.chunk.sampleRate, 4)
    + Pack(frame.chunk.channels, 2)
  }

  /** The frames the printer accepts: the sequence number must fit its field and the audio the size limit. */
  predicate Encodable(frame: PCMFrame) {
    frame.chunk.Valid() && frame.sequence < 0x1_0000_0000 && |frame.chunk.data| <= MAX_PCM_BYTES
  }

  function PcmBody(frame: PCMFrame): seq<byte> {
    [PCM_KIND] + Header(frame) + frame.chunk.data
  }

  function Framed(body: seq<byte>): seq<byte> {
    Pack(|body|, 4) + body
  }

  function EncodePcm(frame: PCMFrame): (r: Result<seq<byte>>)
    requires frame.chunk.Valid()
    ensures r.Ok? <==> Encodable(frame)
  {
    if |frame.chunk.data| > MAX_PCM_BYTES then Err(PcmFrameTooLarge)
    else if frame.sequence >= 0x1_0000_0000 then Err(SequenceOutOfRange)
    else Ok(Framed(PcmBody(frame)))
  }

  function EncodeControl<C>(frame: C, dump: C -> seq<byte>): Result<seq<byte>> {
    if |dump(frame)| > MAX_CONTROL_BYTES then Err(ControlFrameTooLarge) else Ok(Framed([CONTROL_KIND] + dump(frame)))
  }

  function DecodePcm(payload: seq<byte>): Result<PCMFrame> {
    if |payload| <= PCM_HEADER_SIZE then Err(InvalidPcmFrame)
    else
      var chunk := PCMChunk(Unpack(payload[..8]), Unpack(payload[12..16]), Unpack(payload[16..18]), payload[18..]);
      if !chunk.Valid() then Err(InvalidPcmFrame) else Ok(PCMFrame(Unpack(payload[8..12]), chunk))
  }

  function DecodeBody<C>(body: seq<byte>, parse: seq<byte> -> Option<C>): Result<Frame<C>> {
    if body == [] then Err(EmptyFrame)
    else
      var kind, payload := body[0], body[1..];
      if kind == CONTROL_KIND then
        if |payload| > MAX_CONTROL_BYTES then Err(ControlFrameTooLarge)
        else if parse(payload).None? then Err(InvalidControl)
        else Ok(Control(parse(payload).value))
      else if kind == PCM_KIND then
        if |payload| > MAX_PCM_BYTES + PCM_HEADER_SIZE then Err(PcmFrameTooLarge)
        else
          match DecodePcm(payload)
          case Ok(frame) => Ok(PCM(frame))
          case Err(e) => Err(e)
      else Err(UnknownFrameKind)
  }

  lemma HeaderParts(frame: PCMFrame, data: seq<byte>)
    ensures var payload := Header(frame) + data;
            && payload[..8] == Pack(frame.chunk.generation, 8) && payload[8..12] == Pack(frame.sequence, 4)
            && payload[12..16] == Pack(frame.chunk.sampleRate, 4) && payload[16..18] == Pack(frame.chunk.channels, 2)
            && payload[18..] == data
  {
  }

  /** Whatever is printed is read back, over the full range of every field, and fits into one frame. */
  lemma PcmDecodeEncode<C>(frame: PCMFrame, parse: seq<byte> -> Option<C>)
    requires Encodable(frame)
    ensures DecodeBody(PcmBody(frame), parse) == Ok(PCM(frame))
    ensures 0 < |PcmBody(frame)| <= MAX_FRAME_BYTES
  {
    hide Pack, Unpack, Pow256;
    var payload := Header(frame) + frame.chunk.data;
    assert PcmBody(frame)[1..] == payload;
    HeaderParts(frame, frame.chunk.data);
    Widths();
    UnpackPack(frame.chunk.generation, 8);
    UnpackPack(frame.sequence, 4);
    UnpackPack(frame.chunk.sampleRate, 4);
    UnpackPack(frame.chunk.channels, 2);
  }

  /** Whatever is read as audio is exactly what the printer prints for it. */
  lemma PcmEncodeDecode<C>(body: seq<byte>, parse: seq<byte> -> Option<C>)
    requires DecodeBody(body, parse).Ok? && DecodeBody(body, parse).value.PCM?
    ensures var frame := DecodeBody(body, parse).value.frame;
            Encodable(frame) && PcmBody(frame) == body
  {
    hide Pack, Unpack, Pow256;
    var payload := body[1..];
    Widths();
    PackUnpack(payload[..8]);
    PackUnpack(payload[8..12]);
    PackUnpack(payload[12..16]);
    PackUnpack(payload[16..18]);
    var frame := DecodeBody(body, parse).value.frame;
    assert Header(frame) == payload[..8] + payload[8..12] + payload[12..16] + payload[16..18] == payload[..18];
    assert payload == payload[..18] + payload[18..];
    assert body == [PCM_KIND] + payload;
  }

  // ---------------------------------------------------------------------------------------------
  // The bytes on the wire

  function Two(s: seq<byte>, at: nat): nat
    requires at + 2 <= |s|
  {
    s[at] as nat * 0x100 + s[at + 1] as nat
  }

  function Four(s: seq<byte>, at: nat): nat
    requires at + 4 <= |s|
  {
    Two(s, at) * 0x1_0000 + Two(s, at + 2)
  }

  function Eight(s: seq<byte>, at: nat): nat
    requires at + 8 <= |s|
  {
    Four(s, at) * 0x1_0000_0000 + Four(s, at + 4)
  }

  lemma {:induction false} UnpackTwo(s: seq<byte>)
    requires |s| == 2
    ensures Unpack(s) == Two(s, 0)
  {
    assert s[..1][..0] == [] && Unpack([]) == 0;
    assert Unpack(s[..1]) == s[0] as nat;
  }

  lemma {:induction false} UnpackFour(s: seq<byte>)
    requires |s| == 4
    ensures Unpack(s) == Four(s, 0)
  {
    UnpackTwo(s[..2]);
    assert s[..3][..2] == s[..2];
  }

  lemma {:induction false} UnpackEight(s: seq<byte>)
    requires |s| == 8
    ensures Unpack(s) == Eight(s, 0)
  {
    UnpackFour(s[..4]);
    assert s[..7][..6] == s[..6] && s[..6][..5] == s[..5] && s[..5][..4] == s[..4];
    assert Unpack(s[..5]) == Unpack(s[..4]) * 256 + s[4] as nat;
    assert Unpack(s[..6]) == Unpack(s[..5]) * 256 + s[5] as nat;
    assert Unpack(s[..7]) == Unpack(s[..6]) * 256 + s[6] as nat;
  }

  lemma UnpackAt(s: seq<byte>, at: nat)
    ensures at + 2 <= |s| ==> Unpack(s[at..at + 2]) == Two(s, at)
    ensures at + 4 <= |s| ==> Unpack(s[at..at + 4]) == Four(s, at)
    ensures at + 8 <= |s| ==> Unpack(s[at..at + 8]) == Eight(s, at)
  {
    hide Unpack;
    if at + 2 <= |s| { UnpackTwo(s[at..at + 2]); }
    if at + 4 <= |s| { UnpackFour(s[at..at + 4]); }
    if at + 8 <= |s| { UnpackEight(s[at..at + 8]); }
  }

  /** A chunk as the host accepts it. */
  predicate Playable(generation: nat, rate: nat, channels: nat, size: nat) {
    && generation < 0x8000_0000_0000_0000 && 8_000 <= rate <= 192_000 && 1 <= channels <= 8
    && size > 0 && size % (2 * channels) == 0
  }

  /** The body of a frame is an audio frame exactly when its bytes say so. */
  lemma PcmOnTheWire<C>(body: seq<byte>, parse: seq<byte> -> Option<C>)
    ensures DecodeBody(body, parse).Ok? && DecodeBody(body, parse).value.PCM?
            <==> && 20 <= |body| <= 1_048_595 && body[0] == 2
                 && Playable(Eight(body, 1), Four(body, 13), Two(body, 17), |body| - 19)
    ensures DecodeBody(body, parse).Ok? && DecodeBody(body, parse).value.PCM? ==>
              DecodeBody(body, parse).value.frame
              == PCMFrame(Four(body, 9), PCMChunk(Eight(body, 1), Four(body, 13), Two(body, 17), body[19..]))
  {
    hide Unpack, Two, Four, Eight;
    if 20 <= |body| {
      var payload := body[1..];
      UnpackAt(body, 1);
      UnpackAt(body, 9);
      UnpackAt(body, 13);
      UnpackAt(body, 17);
      assert payload[..8] == body[1..9] && payload[8..12] == body[9..13] && payload[12..16] == body[13..17];
      assert payload[16..18] == body[17..19] && payload[18..] == body[19..];
    }
  }

  /**
   And a control frame exactly when it is marked as one, small enough, and its JSON is read; everything else
   raises.
   */
  lemma ControlOnTheWire<C>(body: seq<byte>, parse: seq<byte> -> Option<C>)
    ensures DecodeBody(body, parse).Ok? && DecodeBody(body, parse).value.Control?
            <==> body != [] && body[0] == 1 && |body| <= 65_537 && parse(body[1..]).Some?
    ensures DecodeBody(body, parse).Ok? && DecodeBody(body, parse).value.Control? ==>
              parse(body[1..]) == Some(DecodeBody(body, parse).value.control)
    ensures DecodeBody(body, parse).Err? ==>
              DecodeBody(body, parse).error
              == if body == [] then EmptyFrame
                 else if body[0] == 1 then (if |body| > 65_537 then ControlFrameTooLarge else InvalidControl)
                 else if body[0] == 2 then (if |body| > 1_048_595 then PcmFrameTooLarge else InvalidPcmFrame)
                 else UnknownFrameKind
  {
    hide Unpack;
  }

  /** What the encoder sends: the length of the rest, the kind, and the fields of the header, most significant first. */
  lemma EncodedOnTheWire(frame: PCMFrame)
    requires frame.chunk.Valid()
    ensures var r := EncodePcm(frame);
            && (r.Ok? <==> |frame.chunk.data| <= 1_048_576 && frame.sequence <= 0xFFFF_FFFF)
            && (r.Err? ==> r.error == if |frame.chunk.data| > 1_048_576 then PcmFrameTooLarge else SequenceOutOfRange)
            && (r.Ok? ==>
                  var bytes := r.value;
                  && |bytes| == 23 + |frame.chunk.data| && Four(bytes, 0) == |bytes| - 4 && bytes[4] == 2
                  && Eight(bytes, 5) == frame.chunk.generation && Four(bytes, 13) == frame.sequence
                  && Four(bytes, 17) == frame.chunk.sampleRate && Two(bytes, 21) == frame.chunk.channels
                  && bytes[23..] == frame.chunk.data)
  {
    hide Pack, Unpack, Pow256, Two, Four, Eight;
    if Encodable(frame) {
      var body, bytes := PcmBody(frame), Framed(PcmBody(frame));
      var nothing: seq<byte> -> Option<int> := _ => None;
      PcmDecodeEncode(frame, nothing);
      PcmOnTheWire(body, nothing);
      Widths();
      UnpackPack(|body|, 4);
      assert bytes[0..4] == Pack(|body|, 4) && bytes[4..] == body;
      UnpackAt(bytes, 0);
      SameAt(bytes, body, 4);
      assert bytes[23..] == body[19..];
    }
  }

  /** And a control frame: the length of the rest, the kind, and its JSON, if that has at most 64 KiB. */
  lemma ControlEncodedOnTheWire<C>(frame: C, dump: C -> seq<byte>)
    ensures var r, json := EncodeControl(frame, dump), dump(frame);
            && (r.Ok? <==> |json| <= 65_536) && (r.Err? ==> r.error == ControlFrameTooLarge)
            && (r.Ok? ==>
                  |r.value| == 5 + |json| && Four(r.value, 0) == 1 + |json| && r.value[4] == 1 && r.value[5..] == json)
  {
    hide Pack, Unpack, Four;
    var json := dump(frame);
    if |json| <= 65_536 {
      var bytes := EncodeControl(frame, dump).value;
      UnpackPack(1 + |json|, 4);
      assert bytes[0..4] == Pack(1 + |json|, 4);
      assert bytes[4..] == [CONTROL_KIND] + json;
      UnpackAt(bytes, 0);
    }
  }

  lemma SameAt(bytes: seq<byte>, body: seq<byte>, from: nat)
    requires from <= |bytes| && bytes[from..] == body
    ensures forall at: nat | at + 2 <= |body| :: Two(bytes, from + at) == Two(body, at)
    ensures forall at: nat | at + 4 <= |body| :: Four(bytes, from + at) == Four(body, at)
    ensures forall at: nat | at + 8 <= |body| :: Eight(bytes, from + at) == Eight(body, at)
  {
    assert forall k | 0 <= k < |body| :: bytes[from + k] == body[k];
  }

  /** A frame is there as soon as as many bytes have come as its first four announce. */
  lemma NextOnTheWire(buffer: seq<byte>)
    ensures NextFrame(buffer) == if |buffer| < 4 then Incomplete
                                 else if Four(buffer, 0) == 0 || Four(buffer, 0) > 1_048_640 then BadLength
                                 else if |buffer| < 4 + Four(buffer, 0) then Incomplete
                                 else Complete(buffer[4..4 + Four(buffer, 0)], buffer[4 + Four(buffer, 0)..])
  {
    hide Unpack, Four;
    UnpackAt(buffer, 0);
    if |buffer| >= 4 {
      assert buffer[0..4] == buffer[..4];
    }
  }

  // ---------------------------------------------------------------------------------------------
  // The incremental decoder

  /** The frames read, the bytes left over, and the error that stopped the reading, if any. */
  datatype Decoded<C> = Decoded(frames: seq<Frame<C>>, rest: seq<byte>, error: Option<Error>)

  function Before<C>(frames: seq<Frame<C>>, d: Decoded<C>): Decoded<C> {
    d.(frames := frames + d.frames)
  }

  /** How the next frame stands: still incomplete, too long, or there. */
  datatype Next = Incomplete | BadLength | Complete(body: seq<byte>, rest: seq<byte>)

  function NextFrame(buffer: seq<byte>): (n: Next)
    ensures n.Complete? ==> |n.rest| < |buffer|
  {
    if |buffer| < PREFIX_SIZE then Incomplete
    else
      var length := Unpack(buffer[..PREFIX_SIZE]);
      if length == 0 || length > MAX_FRAME_BYTES then BadLength
      else if |buffer| < PREFIX_SIZE + length then Incomplete
      else Complete(buffer[PREFIX_SIZE..PREFIX_SIZE + length], buffer[PREFIX_SIZE + length..])
  }

  function Drain<C>(buffer: seq<byte>, parse: seq<byte> -> Option<C>): Decoded<C>
    decreases |buffer|
  {
    match NextFrame(buffer)
    case Incomplete => Decoded([], buffer, None)
    case BadLength => Decoded([], buffer, Some(InvalidFrameLength))
    case Complete(body, rest) =>
      match DecodeBody(body, parse)
      case Err(e) => Decoded([], rest, Some(e))
      case Ok(frame) => Before([frame], Drain(rest, parse))
  }

  /** Fragments fed one after the other; the first error stops everything and loses the frames of its own call. */
  function Run<C>(fragments: seq<seq<byte>>, parse: seq<byte> -> Option<C>): Decoded<C> {
    if fragments == [] then Decoded([], [], None)
    else
      var before := Run(fragments[..|fragments| - 1], parse);
      if before.error.Some? then before
      else
        var d := Drain(before.rest + fragments[|fragments| - 1], parse);
        if d.error.Some? then d.(frames := before.frames) else Before(before.frames, d)
  }

  lemma NextFrameStable(buffer: seq<byte>, more: seq<byte>)
    ensures NextFrame(buffer).BadLength? ==> NextFrame(buffer + more).BadLength?
    ensures NextFrame(buffer).Complete? ==>
              NextFrame(buffer + more) == Complete(NextFrame(buffer).body, NextFrame(buffer).rest + more)
  {
    hide Unpack;
    if |buffer| >= PREFIX_SIZE {
      assert (buffer + more)[..PREFIX_SIZE] == buffer[..PREFIX_SIZE];
      var length := Unpack(buffer[..PREFIX_SIZE]);
      if PREFIX_SIZE + length <= |buffer| {
        assert (buffer + more)[PREFIX_SIZE..PREFIX_SIZE + length] == buffer[PREFIX_SIZE..PREFIX_SIZE + length];
        assert (buffer + more)[PREFIX_SIZE + length..] == buffer[PREFIX_SIZE + length..] + more;
      }
    }
  }

  lemma BeforeTwice<C>(a: seq<Frame<C>>, b: seq<Frame<C>>, d: Decoded<C>)
    ensures Before(a, Before(b, d)) == Before(a + b, d) && Before([], d) == d
  {
    assert a + (b + d.frames) == (a + b) + d.frames;
    assert [] + d.frames == d.frames;
  }

  /** Draining in two steps is draining in one, and an error does not go away. */
  lemma {:induction false} DrainOn<C>(buffer: seq<byte>, more: seq<byte>, parse: seq<byte> -> Option<C>)
    ensures var d, e := Drain(buffer, parse), Drain(buffer + more, parse);
            if d.error.Some? then e.frames == d.frames && e.error == d.error
            else e == Before(d.frames, Drain(d.rest + more, parse))
    decreases |buffer|
  {
    hide NextFrame, DecodeBody;
    NextFrameStable(buffer, more);
    match NextFrame(buffer)
    case Incomplete => BeforeTwice([], [], Drain(buffer + more, parse));
    case BadLength =>
    case Complete(body, rest) =>
      DrainOn(rest, more, parse);
      if DecodeBody(body, parse).Ok? {
        var frame := DecodeBody(body, parse).value;
        var d := Drain(rest, parse);
        if d.error.None? {
          BeforeTwice([frame], d.frames, Drain(d.rest + more, parse));
        }
      }
  }

  /**
   However a stream is fragmented, the error is that of the stream as a whole; without one so are the frames
   and the remaining buffer, and with one what was returned before it is a beginning of the frames.
   */
  lemma {:induction false} DecoderFragmentInvariant<C>(fragments: seq<seq<byte>>, parse: seq<byte> -> Option<C>)
    ensures var run, whole := Run(fragments, parse), Drain(Join(fragments), parse);
            run.error == whole.error && run.frames <= whole.frames && (whole.error.None? ==> run == whole)
  {
    if fragments != [] {
      hide Drain;
      var init, last := fragments[..|fragments| - 1], fragments[|fragments| - 1];
      DecoderFragmentInvariant(init, parse);
      DrainOn(Join(init), last, parse);
    } else {
      assert Drain([], parse) == Decoded([], [], None);
    }
  }

  /** The frames returned are exactly those completed by the calls before the one that raises. */
  lemma {:induction false} FramesBeforeError<C>(fragments: seq<seq<byte>>, k: nat, parse: seq<byte> -> Option<C>)
    requires k < |fragments|
    requires Drain(Join(fragments[..k]), parse).error.None? && Drain(Join(fragments[..k + 1]), parse).error.Some?
    ensures Run(fragments, parse).frames == Drain(Join(fragments[..k]), parse).frames
    decreases |fragments|
  {
    hide Drain;
    var init := fragments[..|fragments| - 1];
    if k == |fragments| - 1 {
      assert fragments[..k + 1] == fragments;
      DecoderFragmentInvariant(init, parse);
      DecoderFragmentInvariant(fragments, parse);
    } else {
      assert init[..k] == fragments[..k] && init[..k + 1] == fragments[..k + 1];
      FramesBeforeError(init, k, parse);
      ErrorStays(init, k + 1, parse);
    }
  }

  lemma {:induction false} ErrorStays<C>(fragments: seq<seq<byte>>, k: nat, parse: seq<byte> -> Option<C>)
    requires k <= |fragments| && Drain(Join(fragments[..k]), parse).error.Some?
    ensures Run(fragments, parse).error.Some?
  {
    hide Drain, Run;
    DecoderFragmentInvariant(fragments, parse);
    JoinAppend(fragments[..k], fragments[k..]);
    assert fragments[..k] + fragments[k..] == fragments;
    DrainOn(Join(fragments[..k]), Join(fragments[k..]), parse);
  }

  /** Every fragmentation returns the frames of the stream if and only if no frame precedes an error in it. */
  lemma {:induction false} DecoderExact<C>(stream: seq<byte>, parse: seq<byte> -> Option<C>)
    ensures (forall fragments | Join(fragments) == stream ::
               Run(fragments, parse).frames == Drain(stream, parse).frames)
            <==> Drain(stream, parse).error.None? || Drain(stream, parse).frames == []
  {
    hide Drain;
    var whole := Drain(stream, parse);
    if whole.error.None? || whole.frames == [] {
      forall fragments | Join(fragments) == stream
        ensures Run(fragments, parse).frames == whole.frames
      {
        DecoderFragmentInvariant(fragments, parse);
      }
    } else {
      OneFragment(stream, parse);
    }
  }

  lemma {:induction false} OneFragment<C>(stream: seq<byte>, parse: seq<byte> -> Option<C>)
    ensures Join([stream]) == stream
    ensures Drain(stream, parse).error.Some? ==> Run([stream], parse).frames == []
  {
    hide Drain;
    assert [stream][..0] == [] && [] + stream == stream;
  }

  /** It happens: a good frame and a bad length in one call return nothing, in two calls the frame. */
  lemma ErrorLosesFrames<C>(body: seq<byte>, frame: Frame<C>, parse: seq<byte> -> Option<C>)
    requires Framable(body, frame, parse)
    ensures var good, bad := Framed(body), [0, 0, 0, 0];
            Run([good, bad], parse).frames == [frame] && Run([good + bad], parse).frames == []
  {
    hide DecodeBody, Framed, Unpack, Drain, NextFrame;
    var good, bad := Framed(body), [0, 0, 0, 0];
    BadFrame(parse);
    DrainFrame(body, frame, bad, parse);
    DrainFrame(body, frame, [], parse);
    NothingYet();
    assert good + [] == good && Drain([], parse) == Decoded([], [], None) by { DrainNothing(parse); }
    assert [good, bad][..1] == [good];
    JoinOne(good);
    JoinSnoc([good], bad);
    assert [good] + [bad] == [good, bad];
    FramesBeforeError([good, bad], 1, parse);
    OneFragment(good + bad, parse);
  }

  lemma JoinOne(s: seq<byte>)
    ensures Join([s]) == s
  {
  }

  lemma DrainNothing<C>(parse: seq<byte> -> Option<C>)
    ensures Drain([], parse) == Decoded([], [], None)
  {
  }

  lemma BadFrame<C>(parse: seq<byte> -> Option<C>)
    ensures Drain([0, 0, 0, 0], parse) == Decoded([], [0, 0, 0, 0], Some(InvalidFrameLength))
  {
    var bad: seq<byte> := [0, 0, 0, 0];
    assert bad[..PREFIX_SIZE] == bad == Pack(0, 4);
    Widths();
    UnpackPack(0, 4);
    hide Pack, Unpack;
  }

  lemma {:induction false} DrainFrame<C>(body: seq<byte>, frame: Frame<C>, more: seq<byte>,
                                         parse: seq<byte> -> Option<C>)
    requires Framable(body, frame, parse)
    ensures Drain(Framed(body) + more, parse) == Before([frame], Drain(more, parse))
  {
    NextOfFramed(body, more);
    hide NextFrame, DecodeBody, Framed;
  }

  /** A body the printer would frame. */
  ghost predicate Framable<C>(body: seq<byte>, frame: Frame<C>, parse: seq<byte> -> Option<C>) {
    0 < |body| <= MAX_FRAME_BYTES && DecodeBody(body, parse) == Ok(frame)
  }

  lemma NextOfFramed(body: seq<byte>, more: seq<byte>)
    requires 0 < |body| <= MAX_FRAME_BYTES
    ensures NextFrame(Framed(body) + more) == Complete(body, more)
  {
    hide Pack, Unpack, Pow256;
    var buffer := Framed(body) + more;
    Widths();
    UnpackPack(|body|, 4);
    assert buffer[..PREFIX_SIZE] == Pack(|body|, 4);
    assert buffer[PREFIX_SIZE..PREFIX_SIZE + |body|] == body;
    assert buffer[PREFIX_SIZE + |body|..] == more;
  }

  function FramedAll(bodies: seq<seq<byte>>): seq<byte> {
    if bodies == [] then [] else Framed(bodies[0]) + FramedAll(bodies[1..])
  }

  lemma {:induction false} DrainFramed<C>(bodies: seq<seq<byte>>, frames: seq<Frame<C>>, parse: seq<byte> -> Option<C>)
    requires |bodies| == |frames| && forall i | 0 <= i < |bodies| :: Framable(bodies[i], frames[i], parse)
    ensures Drain(FramedAll(bodies), parse) == Decoded(frames, [], None)
  {
    hide NextFrame, DecodeBody, Framed;
    if bodies == [] {
      assert NextFrame([]).Incomplete? by { NothingYet(); }
    } else {
      assert Framable(bodies[0], frames[0], parse);
      NextOfFramed(bodies[0], FramedAll(bodies[1..]));
      forall i | 0 <= i < |bodies| - 1
        ensures Framable(bodies[1..][i], frames[1..][i], parse)
      {
        assert Framable(bodies[i + 1], frames[i + 1], parse);
      }
      DrainFramed(bodies[1..], frames[1..], parse);
      assert frames == [frames[0]] + frames[1..];
    }
  }

  lemma NothingYet()
    ensures NextFrame([]) == Incomplete
  {
  }

  /** Any fragmentation of any frames is decoded to exactly these frames, in order, with nothing left over. */
  lemma {:induction false} DecoderInvertsEncoder<C>(fragments: seq<seq<byte>>, bodies: seq<seq<byte>>,
                                                    frames: seq<Frame<C>>,
                                                    parse: seq<byte> -> Option<C>)
    requires |bodies| == |frames| && forall i | 0 <= i < |bodies| :: Framable(bodies[i], frames[i], parse)
    requires Join(fragments) == FramedAll(bodies)
    ensures Run(fragments, parse) == Decoded(frames, [], None)
  {
    hide Framable, Drain;
    DrainFramed(bodies, frames, parse);
    DecoderFragmentInvariant(fragments, parse);
  }

  /** Audio frames are framable, and so are control frames whose JSON is read back. */
  lemma PrintedIsFramable<C>(pcm: PCMFrame, control: C, dump: C -> seq<byte>, parse: seq<byte> -> Option<C>)
    ensures Encodable(pcm) ==> EncodePcm(pcm) == Ok(Framed(PcmBody(pcm))) && Framable(PcmBody(pcm), PCM(pcm), parse)
    ensures EncodeControl(control, dump).Ok? && parse(dump(control)) == Some(control) ==>
              Framable([CONTROL_KIND] + dump(control), Control(control), parse)
  {
    hide Pack, Unpack, Header, PcmBody;
    if Encodable(pcm) {
      PcmDecodeEncode(pcm, parse);
    }
    assert ([CONTROL_KIND] + dump(control))[1..] == dump(control);
  }

  // ---------------------------------------------------------------------------------------------
  // The classes

  class FrameDecoder<C> {
    const parse: seq<byte> -> Option<C>
    var buffer: seq<byte>

    constructor (parse: seq<byte> -> Option<C>)
      ensures this.parse == parse && buffer == []
    {
      this.parse := parse;
      buffer := [];
    }

    /** The frames completed by the fragment; an error loses those completed in the same call. */
    method Feed(data: seq<byte>) returns (result: Result<seq<Frame<C>>>)
      modifies this
      ensures var d := Drain(old(buffer) + data, parse);
              buffer == d.rest && result == if d.error.Some? then Err(d.error.value) else Ok(d.frames)
    {
      hide DecodeBody, Unpack;
      buffer := buffer + data;
      ghost var start := buffer;
      var frames: seq<Frame<C>> := [];
      BeforeTwice([], [], Drain(start, parse));
      while |buffer| >= PREFIX_SIZE
        invariant Drain(start, parse) == Before(frames, Drain(buffer, parse))
        decreases |buffer|
      {
        var length := Unpack(buffer[..PREFIX_SIZE]);
        if length == 0 || length > MAX_FRAME_BYTES {
          return Err(InvalidFrameLength);
        }
        var total := PREFIX_SIZE + length;
        if |buffer| < total {
          break;
        }
        var body := buffer[PREFIX_SIZE..total];
        buffer := buffer[total..];
        var decoded := DecodeBody(body, parse);
        if decoded.Err? {
          return Err(decoded.error);
        }
        BeforeTwice(frames, [decoded.value], Drain(buffer, parse));
        frames := frames + [decoded.value];
      }
      assert frames + [] == frames;
      result := Ok(frames);
    }
  }

  /** `read_frame` on the bytes that will still arrive; the second component is what it leaves. */
  function ReadFrame<C>(stream: seq<byte>, parse: seq<byte> -> Option<C>): (Result<Frame<C>>, seq<byte>) {
    if |stream| < PREFIX_SIZE then (Err(WorkerEof), [])
    else
      var length := Unpack(stream[..PREFIX_SIZE]);
      if length == 0 || length > MAX_FRAME_BYTES then (Err(InvalidFrameLength), stream[PREFIX_SIZE..])
      else if |stream| < PREFIX_SIZE + length then (Err(TruncatedFrame), [])
      else (DecodeBody(stream[PREFIX_SIZE..PREFIX_SIZE + length], parse), stream[PREFIX_SIZE + length..])
  }

  /** Reading frame by frame gives what the decoder gives, up to the end of the stream or the first error. */
  lemma {:induction false} ReadFrameAgrees<C>(stream: seq<byte>, parse: seq<byte> -> Option<C>)
    ensures var (result, rest) := ReadFrame(stream, parse);
            match result
            case Ok(frame) => Drain(stream, parse) == Before([frame], Drain(rest, parse))
            case Err(WorkerEof) => Drain(stream, parse) == Decoded([], stream, None)
            case Err(TruncatedFrame) => Drain(stream, parse) == Decoded([], stream, None)
            case Err(e) => Drain(stream, parse).frames == [] && Drain(stream, parse).error == Some(e)
  {
    hide Unpack;
    NoStreamErrors(stream, parse);
  }

  lemma NoStreamErrors<C>(stream: seq<byte>, parse: seq<byte> -> Option<C>)
    ensures forall body :: DecodeBody(body, parse) != Err(WorkerEof) && DecodeBody(body, parse) != Err(TruncatedFrame)
  {
  }
}
