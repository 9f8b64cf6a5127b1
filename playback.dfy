/** Gapless playback of the coach's audio chunks (components/LiveSessionScreen.tsx):
    the output audio context, the next-start-time clock, the set of sources still
    playing and the last decoded buffer kept for replay. */
module Playback {
  import opened Wrappers
  import opened Base64
  import opened AudioUtils

  /** The output context runs at 24 kHz and the coach's PCM is mono. */
  const OutputSampleRate: int := 24000
  const OutputChannels: nat := 1

  /** An AudioBufferSourceNode that was started: its buffer and its start time. */
  class SourceNode {
    const buffer: AudioBuffer
    const startAt: real

    constructor (buffer: AudioBuffer, startAt: real)
      ensures this.buffer == buffer && this.startAt == startAt
    {
      this.buffer := buffer;
      this.startAt := startAt;
    }
  }

  /** AudioBuffer.duration: frames divided by the sample rate. */
  function Duration(b: AudioBuffer): (d: real)
    requires b.sampleRate > 0
    ensures d >= 0.0
  {
    b.length as real / b.sampleRate as real
  }

  /** The buffer an inline audio chunk decodes to (line 136): base 64 to bytes, then mono
      PCM at the output rate; either step may fail. */
  function ChunkBuffer(base64: string): (r: Result<AudioBuffer, Exception>)
    ensures r.Ok? ==> r.value.sampleRate == OutputSampleRate && |r.value.channels| == 1 && r.value.length > 0
    ensures Atob(base64).Err? ==> r == Err(InvalidCharacterError)
  {
    match DecodeBytes(base64)
    case Err(e) => Err(e)
    case Ok(bytes) => AudioBufferOf(bytes, OutputSampleRate, OutputChannels)
  }

  /** Line 134: a chunk starts at the clock, or now when the clock has fallen behind. */
  function StartTime(next: real, now: real): (t: real)
    ensures t >= next && t >= now
    ensures t == next || t == now
  {
    if next >= now then next else now
  }

  /** A chunk as the clock sees it: when it arrives and how long it plays. */
  datatype Arrival = Arrival(at: real, duration: real)

  /** The start times of successive chunks (lines 134 and 142-143): each starts at the
      clock raised to its arrival time, and the clock then moves past its end. */
  function Starts(next: real, arrivals: seq<Arrival>): (r: seq<real>)
    ensures |r| == |arrivals|
    decreases |arrivals|
  {
    if arrivals == [] then []
    else
      var t := StartTime(next, arrivals[0].at);
      [t] + Starts(t + arrivals[0].duration, arrivals[1..])
  }

  /** No chunk starts before it arrives or before the initial clock. */
  lemma {:induction false} StartsAfterArrival(next: real, arrivals: seq<Arrival>)
    requires forall k :: 0 <= k < |arrivals| ==> arrivals[k].duration >= 0.0
    ensures var r := Starts(next, arrivals);
            forall k :: 0 <= k < |r| ==> r[k] >= arrivals[k].at && r[k] >= next
    decreases |arrivals|
  {
    if arrivals != [] {
      var t := StartTime(next, arrivals[0].at);
      var tail := arrivals[1..];
      StartsAfterArrival(t + arrivals[0].duration, tail);
      var r := Starts(next, arrivals);
      var rest := Starts(t + arrivals[0].duration, tail);
      assert r == [t] + rest;
      forall k | 0 <= k < |r| ensures r[k] >= arrivals[k].at && r[k] >= next {
        if k > 0 {
          assert r[k] == rest[k - 1] && tail[k - 1] == arrivals[k];
        }
      }
    }
  }

  /** Each chunk starts no earlier than the end of the one before it, and exactly at that
      end when it arrived while the one before was still playing (whatever the durations). */
  lemma {:induction false} StartsBackToBack(next: real, arrivals: seq<Arrival>)
    ensures var r := Starts(next, arrivals);
            && (forall j :: 0 <= j < |r| - 1 ==> r[j] + arrivals[j].duration <= r[j + 1])
            && (forall j :: 0 <= j < |r| - 1 && arrivals[j + 1].at <= r[j] + arrivals[j].duration ==>
                  r[j + 1] == r[j] + arrivals[j].duration)
    decreases |arrivals|
  {
    if arrivals != [] {
      var t := StartTime(next, arrivals[0].at);
      var d := arrivals[0].duration;
      var tail := arrivals[1..];
      StartsBackToBack(t + d, tail);
      var r := Starts(next, arrivals);
      var rest := Starts(t + d, tail);
      assert r == [t] + rest;
      forall j | 0 <= j < |r| - 1
        ensures r[j] + arrivals[j].duration <= r[j + 1]
        ensures arrivals[j + 1].at <= r[j] + arrivals[j].duration ==> r[j + 1] == r[j] + arrivals[j].duration
      {
        if j == 0 {
          assert r[1] == rest[0] == StartTime(t + d, tail[0].at);
        } else {
          assert r[j] == rest[j - 1] && r[j + 1] == rest[j];
          assert tail[j - 1] == arrivals[j] && tail[j] == arrivals[j + 1];
        }
      }
    }
  }

  /** Chunks are played without overlap: none starts before it arrives or before the
      initial clock, each starts after the previous one ends, and one arriving while the
      previous still plays starts exactly when that one ends. */
  lemma StartsNoOverlap(next: real, arrivals: seq<Arrival>)
    requires forall k :: 0 <= k < |arrivals| ==> arrivals[k].duration >= 0.0
    ensures var r := Starts(next, arrivals);
            && (forall k :: 0 <= k < |r| ==> r[k] >= arrivals[k].at && r[k] >= next)
            && (forall j :: 0 <= j < |r| - 1 ==> r[j] + arrivals[j].duration <= r[j + 1])
            && (forall j :: 0 <= j < |r| - 1 && arrivals[j + 1].at <= r[j] + arrivals[j].duration ==>
                  r[j + 1] == r[j] + arrivals[j].duration)
  {
    StartsAfterArrival(next, arrivals);
    StartsBackToBack(next, arrivals);
  }

  /** The clock after a run of chunks. */
  function ClockAfter(next: real, arrivals: seq<Arrival>): (c: real)
    requires forall k :: 0 <= k < |arrivals| ==> arrivals[k].duration >= 0.0
    ensures c >= next
    decreases |arrivals|
  {
    if arrivals == [] then next
    else
      var t := StartTime(next, arrivals[0].at);
      var c := ClockAfter(t + arrivals[0].duration, arrivals[1..]);
      c
  }

  /** The playback half of the session screen. `hasContext` stands for a non-null output
      context ref; the ref is never cleared. */
  class PlaybackClock {
    var hasContext: bool
    var nextStartTime: real
    var sources: set<SourceNode>
    var lastSpoken: Option<AudioBuffer>

    /** Every source still playing ends no later than the clock. */
    ghost predicate Valid()
      reads this
    {
      forall s :: s in sources ==> s.buffer.sampleRate > 0 && s.startAt + Duration(s.buffer) <= nextStartTime
    }

    constructor ()
      ensures !hasContext && nextStartTime == 0.0 && sources == {} && lastSpoken == None
      ensures Valid()
    {
      hasContext := false;
      nextStartTime := 0.0;
      sources := {};
      lastSpoken := None;
    }

    /** Line 198: the output context is created when the session starts. */
    method OpenContext()
      modifies this
      ensures hasContext
      ensures nextStartTime == old(nextStartTime) && sources == old(sources) && lastSpoken == old(lastSpoken)
    {
      hasContext := true;
    }

    /** Lines 131-146: schedule an inline audio chunk. An empty chunk or a missing context
        does nothing. Otherwise the clock is raised to the current time first; a chunk that
        fails to decode is then dropped, and a decoded one is started at the clock, kept for
        replay, added to the playing set, and moves the clock past its end. */
    method HandleAudio(base64: string, currentTime: real) returns (scheduled: Option<SourceNode>)
      requires Valid()
      modifies this
      ensures Valid()
      ensures hasContext == old(hasContext)
      ensures base64 == "" || !old(hasContext) ==>
                scheduled == None && nextStartTime == old(nextStartTime)
                && sources == old(sources) && lastSpoken == old(lastSpoken)
      ensures base64 != "" && old(hasContext) ==>
                var start := StartTime(old(nextStartTime), currentTime);
                match ChunkBuffer(base64)
                case Err(_) =>
                  scheduled == None && nextStartTime == start
                  && sources == old(sources) && lastSpoken == old(lastSpoken)
                case Ok(buffer) =>
                  && scheduled.Some? && fresh(scheduled.value)
                  && scheduled.value.buffer == buffer && scheduled.value.startAt == start
                  && nextStartTime == start + Duration(buffer)
                  && sources == old(sources) + {scheduled.value}
                  && lastSpoken == Some(buffer)
      ensures scheduled.Some? ==>
                forall s :: s in old(sources) ==> s.startAt + Duration(s.buffer) <= scheduled.value.startAt
    {
      if base64 == "" || !hasContext {
        return None;
      }
      nextStartTime := StartTime(nextStartTime, currentTime);
      var decoded := Decode(base64);
      if decoded.Err? {
        return None;
      }
      assert DecodeBytes(base64) == Ok(decoded.value[..]);
      var audioBuffer := DecodeAudioData(decoded.value, OutputSampleRate, OutputChannels);
      if audioBuffer.Err? {
        return None;
      }
      lastSpoken := Some(audioBuffer.value);
      var source := new SourceNode(audioBuffer.value, nextStartTime);
      nextStartTime := nextStartTime + Duration(audioBuffer.value);
      sources := sources + {source};
      scheduled := Some(source);
    }

    /** Line 141: a source that finished playing leaves the set. */
    method OnEnded(source: SourceNode)
      requires Valid()
      modifies this
      ensures Valid()
      ensures sources == old(sources) - {source}
      ensures hasContext == old(hasContext) && nextStartTime == old(nextStartTime) && lastSpoken == old(lastSpoken)
    {
      sources := sources - {source};
    }

    /** Lines 284-292: replay the last buffer at time 0 (that is, at once), outside the
        clock and the playing set; nothing happens without a buffer or a context. */
    method RepeatLastAudio() returns (played: Option<SourceNode>)
      ensures played.Some? <==> lastSpoken.Some? && hasContext
      ensures played.Some? ==> fresh(played.value) && played.value.buffer == lastSpoken.value
                               && played.value.startAt == 0.0
    {
      if lastSpoken.Some? && hasContext {
        var source := new SourceNode(lastSpoken.value, 0.0);
        return Some(source);
      }
      return None;
    }
  }

  /** HandleAudio from the clock of a run of chunks takes the next step of Starts: the
      start it assigns is the one Starts gives the chunk appended to the run. */
  lemma {:induction false} StartsExtend(next: real, arrivals: seq<Arrival>, a: Arrival)
    requires forall k :: 0 <= k < |arrivals| ==> arrivals[k].duration >= 0.0
    requires a.duration >= 0.0
    ensures Starts(next, arrivals + [a]) == Starts(next, arrivals) + [StartTime(ClockAfter(next, arrivals), a.at)]
    decreases |arrivals|
  {
    var all := arrivals + [a];
    assert forall k :: 0 <= k < |all| ==> all[k].duration >= 0.0;
    if arrivals != [] {
      var t := StartTime(next, arrivals[0].at);
      var tail := arrivals[1..];
      assert all[1..] == tail + [a];
      assert all[0] == arrivals[0];
      StartsExtend(t + arrivals[0].duration, tail, a);
      assert ClockAfter(next, arrivals) == ClockAfter(t + arrivals[0].duration, tail);
      calc {
        Starts(next, all);
        [t] + Starts(t + arrivals[0].duration, tail + [a]);
        [t] + (Starts(t + arrivals[0].duration, tail) + [StartTime(ClockAfter(next, arrivals), a.at)]);
        ([t] + Starts(t + arrivals[0].duration, tail)) + [StartTime(ClockAfter(next, arrivals), a.at)];
      }
    }
  }

  /** ... and the clock it leaves is the clock after the extended run. */
  lemma {:induction false} ClockAfterExtend(next: real, arrivals: seq<Arrival>, a: Arrival)
    requires forall k :: 0 <= k < |arrivals| ==> arrivals[k].duration >= 0.0
    requires a.duration >= 0.0
    ensures ClockAfter(next, arrivals + [a]) == StartTime(ClockAfter(next, arrivals), a.at) + a.duration
    decreases |arrivals|
  {
    var all := arrivals + [a];
    assert forall k :: 0 <= k < |all| ==> all[k].duration >= 0.0;
    if arrivals != [] {
      var t := StartTime(next, arrivals[0].at);
      var tail := arrivals[1..];
      assert all[1..] == tail + [a];
      assert all[0] == arrivals[0];
      ClockAfterExtend(t + arrivals[0].duration, tail, a);
    }
  }
}
