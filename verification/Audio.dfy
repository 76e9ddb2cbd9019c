/**
 Spans of 16-bit mono PCM in absolute sample coordinates.

 A `device` is everything the microphone has delivered on one timeline. What is proved about captured
 audio is always that it is `Region(device, start, end)`, byte for byte.
 */
module Audio {
  import opened Bytes
  import opened Wrappers

  const BYTES_PER_SAMPLE := 2

  /** `None` where the source raises: a negative argument or a threshold between two samples. */
  function MillisecondsToSamples(milliseconds: int, sampleRate: int): (samples: Option<nat>)
    ensures samples.Some? ==> samples.value * 1000 == milliseconds * sampleRate
    ensures samples.None?
            <==> milliseconds < 0 || sampleRate <= 0 || forall n: nat :: n * 1000 != milliseconds * sampleRate
  {
    if milliseconds < 0 || sampleRate <= 0 || milliseconds * sampleRate % 1000 != 0 then None
    else NonNegative(milliseconds, sampleRate); Some(milliseconds * sampleRate / 1000)
  }

  lemma NonNegative(a: nat, b: nat)
    ensures a * b >= 0
  {
  }

  function Max(a: int, b: int): int {
    if a < b then b else a
  }

  function Min(a: int, b: int): int {
    if a < b then a else b
  }

  /** The bytes of the samples in [start, end). */
  function Region(device: seq<byte>, start: nat, end: nat): (pcm: seq<byte>)
    requires start <= end && 2 * end <= |device|
    ensures |pcm| == 2 * (end - start)
  {
    device[2 * start..2 * end]
  }

  datatype AudioSpan = AudioSpan(pcm: seq<byte>, start: nat, end: nat, generation: nat) {

    predicate Valid() {
      start <= end && |pcm| == BYTES_PER_SAMPLE * (end - start)
    }

    function FrameCount(): nat
      requires Valid()
    {
      end - start
    }

    /** `None` when the trim point is outside the span. */
    function TrimLeft(from: nat): (r: Option<AudioSpan>)
      requires Valid()
      ensures r.Some? <==> start <= from <= end
      ensures r.Some? ==> r.value.Valid()
    {
      if !(start <= from <= end) then None
      else Some(AudioSpan(pcm[2 * (from - start)..], from, end, generation))
    }

    /** `None` when the slice is outside the span. */
    function Slice(from: nat, to: nat): (r: Option<AudioSpan>)
      requires Valid()
      ensures r.Some? <==> start <= from <= to <= end
      ensures r.Some? ==> r.value.Valid()
    {
      if !(start <= from <= to <= end) then None
      else Some(AudioSpan(pcm[2 * (from - start)..2 * (to - start)], from, to, generation))
    }

    /** The span is exactly what the device delivered in its coordinates. */
    ghost predicate Exact(device: seq<byte>) {
      Valid() && 2 * end <= |device| && pcm == Region(device, start, end)
    }
  }

  /** The constructor's check: the byte length must match the sample range. */
  function MakeSpan(pcm: seq<byte>, start: nat, end: nat, generation: nat): (r: Option<AudioSpan>)
    ensures r.Some? <==> AudioSpan(pcm, start, end, generation).Valid()
    ensures r.Some? ==> r.value == AudioSpan(pcm, start, end, generation)
  {
    var span := AudioSpan(pcm, start, end, generation);
    if span.Valid() then Some(span) else None
  }

  lemma RegionJoin(device: seq<byte>, a: nat, b: nat, c: nat)
    requires a <= b <= c && 2 * c <= |device|
    ensures Region(device, a, b) + Region(device, b, c) == Region(device, a, c)
  {
  }

  lemma RegionPart(device: seq<byte>, a: nat, b: nat, from: nat, to: nat)
    requires a <= from <= to <= b && 2 * b <= |device|
    ensures Region(device, a, b)[2 * (from - a)..2 * (to - a)] == Region(device, from, to)
  {
  }

  /** A longer device stream has the same regions. */
  lemma RegionGrows(device: seq<byte>, longer: seq<byte>, a: nat, b: nat)
    requires a <= b && 2 * b <= |device| && device <= longer
    ensures Region(longer, a, b) == Region(device, a, b)
  {
  }

  /** Slices of exact spans are exact. */
  lemma SliceExact(span: AudioSpan, from: nat, to: nat, device: seq<byte>)
    requires span.Exact(device) && span.start <= from <= to <= span.end
    ensures span.Slice(from, to).value.Exact(device)
  {
    RegionPart(device, span.start, span.end, from, to);
  }
}
