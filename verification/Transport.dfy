/**
 The bounded queue between the audio callback and the pipeline.

 `device` is the ghost record of everything delivered since the stream was (re)built. Every queued span is
 exactly its slice of it, in order, whatever was dropped or withheld in between.
 */
module Transport {
  import opened Bytes
  import opened Wrappers
  import opened Audio

  class LocalAudioTransport {
    const maxCallbacks: nat
    var queue: seq<AudioSpan>
    var microphoneEnabled: bool
    var sampleCursor: nat
    var generation: nat
    var overflowed: bool
    var droppedCallbacks: nat
    ghost var device: seq<byte>

    ghost predicate Valid()
      reads this
    {
      && 0 < maxCallbacks
      && |queue| <= maxCallbacks
      && |device| == 2 * sampleCursor
      && (forall i | 0 <= i < |queue| :: queue[i].Exact(device) && queue[i].start < queue[i].end <= sampleCursor)
      && (forall i, j | 0 <= i < j < |queue| :: queue[i].end <= queue[j].start)
    }

    constructor (maxCallbacks: nat)
      requires 0 < maxCallbacks
      ensures Valid() && queue == [] && device == [] && !microphoneEnabled && generation == 0
      ensures this.maxCallbacks == maxCallbacks
    {
      this.maxCallbacks := maxCallbacks;
      queue, microphoneEnabled, sampleCursor, generation := [], false, 0, 0;
      overflowed, droppedCallbacks, device := false, 0, [];
    }

    method SetMicrophone(enabled: bool)
      requires Valid()
      modifies this`microphoneEnabled
      ensures Valid() && microphoneEnabled == enabled
    {
      microphoneEnabled := enabled;
    }

    method SetGeneration(next: nat)
      requires Valid()
      modifies this`generation
      ensures Valid() && generation == next
    {
      generation := next;
    }

    /**
     One callback. The cursor moves for every well-formed buffer, also when the microphone is off or the
     queue is full, so that what is lost leaves a hole in the coordinates and is never papered over.
     */
    method AudioCallback(pcm: seq<byte>) returns (ok: bool)
      requires Valid()
      modifies this
      ensures Valid()
      ensures microphoneEnabled == old(microphoneEnabled) && generation == old(generation)
      ensures pcm == [] || |pcm| % 2 != 0 ==>
                !ok && overflowed && queue == old(queue) && device == old(device)
                && droppedCallbacks == old(droppedCallbacks)
      ensures pcm != [] && |pcm| % 2 == 0 ==>
                var full := microphoneEnabled && |old(queue)| == maxCallbacks;
                && device == old(device) + pcm
                && ok == !full
                && overflowed == (old(overflowed) || full)
                && droppedCallbacks == old(droppedCallbacks) + (if full then 1 else 0)
                && queue == old(queue) + if microphoneEnabled && !full
                                         then [AudioSpan(pcm, old(sampleCursor), sampleCursor, generation)] else []
    {
      if pcm == [] || |pcm| % 2 != 0 {
        overflowed := true;
        return false;
      }
      var frameCount := |pcm| / 2;
      var start := sampleCursor;
      QueueStaysExact(queue, device, pcm);
      sampleCursor := sampleCursor + frameCount;
      device := device + pcm;
      if !microphoneEnabled {
        return true;
      }
      if |queue| == maxCallbacks {
        droppedCallbacks := droppedCallbacks + 1;
        overflowed := true;
        return false;
      }
      queue := queue + [AudioSpan(pcm, start, start + frameCount, generation)];
      return true;
    }

    method ReadNowait() returns (span: Option<AudioSpan>)
      requires Valid()
      modifies this`queue
      ensures Valid()
      ensures if old(queue) == [] then span == None && queue == []
              else span == Some(old(queue)[0]) && queue == old(queue)[1..] && old(queue)[0].Exact(device)
    {
      if queue == [] {
        return None;
      }
      span := Some(queue[0]);
      queue := queue[1..];
    }

    method MarkDiscontinuity()
      requires Valid()
      modifies this`overflowed
      ensures Valid() && overflowed
    {
      overflowed := true;
    }

    /** A new timeline: nothing queued, the microphone off, coordinates from zero. */
    method Rebuild(next: nat)
      requires Valid()
      modifies this
      ensures Valid()
      ensures queue == [] && device == [] && generation == next && !microphoneEnabled && !overflowed
              && droppedCallbacks == 0
    {
      microphoneEnabled := false;
      while queue != []
        invariant Valid() && !microphoneEnabled
        decreases |queue|
      {
        var dropped := ReadNowait();
      }
      sampleCursor, device := 0, [];
      generation := next;
      droppedCallbacks := 0;
      overflowed := false;
    }
  }

  lemma QueueStaysExact(queue: seq<AudioSpan>, device: seq<byte>, pcm: seq<byte>)
    requires forall i | 0 <= i < |queue| :: queue[i].Exact(device)
    ensures forall i | 0 <= i < |queue| :: queue[i].Exact(device + pcm)
  {
    forall i | 0 <= i < |queue|
      ensures queue[i].Exact(device + pcm)
    {
      RegionGrows(device, device + pcm, queue[i].start, queue[i].end);
    }
  }
}
