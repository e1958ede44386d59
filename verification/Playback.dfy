/** The audio callback, which may be asked for blocks of any size, against one
    plain stream of samples. */
module Playback {
  import opened Sequences

  /** Silence, then the modulation, then silence for ever. */
  function Stream(silence: nat, modulation: seq<int>, i: nat): int {
    if silence <= i < silence + |modulation| then modulation[i - silence] else 0
  }

  function Samples(silence: nat, modulation: seq<int>, from: nat, n: nat): (r: seq<int>)
    ensures |r| == n && forall k :: 0 <= k < n ==> r[k] == Stream(silence, modulation, from + k)
  {
    seq(n, k requires 0 <= k < n => Stream(silence, modulation, from + k))
  }

  lemma SamplesJoin(silence: nat, modulation: seq<int>, n: nat, more: nat)
    ensures Samples(silence, modulation, 0, n) + Samples(silence, modulation, n, more)
         == Samples(silence, modulation, 0, n + more)
  {
  }

  class AudioPlayback {
    var silenceRemaining: int
    var modulation: seq<int>
    var loaded: bool          // a modulation is set
    var cursor: nat
    var frameDone: bool

    // The frame last armed, and all that the callback put out since.
    ghost var silence: nat
    ghost var frame: seq<int>
    ghost var emitted: seq<int>

    constructor ()
      ensures Valid() && !loaded && emitted == []
    {
      silenceRemaining, modulation, loaded, cursor, frameDone := 0, [], false, 0, false;
      silence, frame, emitted := 0, [], [];
    }

    /** What went out so far is the start of the stream, and the frame is done
        exactly once a block has reached past the end of the modulation. */
    ghost predicate Valid()
      reads this
    {
      && emitted == Samples(silence, frame, 0, |emitted|)
      && (loaded ==>
            && !frameDone && modulation == frame && |emitted| <= silence + |frame|
            && silenceRemaining == (if |emitted| < silence then silence - |emitted| else 0)
            && cursor == (if |emitted| < silence then 0 else |emitted| - silence))
      && (frameDone ==> !loaded && |emitted| > silence + |frame|)
      && (!loaded ==> frameDone || frame == [])
    }

    /** The part of `play_frame` that arms the stream; false stands for its
        PlaybackError. */
    method Arm(silenceSamples: int, samples: seq<int>) returns (ok: bool)
      requires Valid()
      modifies this
      ensures Valid() && (ok <==> silenceSamples >= 0)
      ensures ok ==> silence == silenceSamples && frame == samples && emitted == [] && loaded && !frameDone
      ensures !ok ==> silence == old(silence) && frame == old(frame) && emitted == old(emitted)
    {
      if silenceSamples < 0 { return false; }
      silenceRemaining, modulation, loaded, cursor, frameDone := silenceSamples, samples, true, 0, false;
      silence, frame, emitted := silenceSamples, samples, [];
      ok := true;
    }

    /** The rest of the silence, or as much of it as fits. */
    method EmitSilence(outdata: array2<int>) returns (i: nat)
      requires outdata.Length1 == 2 && 0 <= silenceRemaining
      modifies this`silenceRemaining, outdata
      ensures i == if outdata.Length0 < old(silenceRemaining) then outdata.Length0 else old(silenceRemaining)
      ensures silenceRemaining == old(silenceRemaining) - i
      ensures forall k :: 0 <= k < i ==> outdata[k, 0] == 0 && outdata[k, 1] == 0
    {
      i := 0;
      if silenceRemaining > 0 {
        i := if outdata.Length0 < silenceRemaining then outdata.Length0 else silenceRemaining;
        FillZeros(outdata, 0, i);
        silenceRemaining := silenceRemaining - i;
      }
    }

    /** The rest of the modulation, or as much of it as fits behind `from`. */
    method EmitModulation(outdata: array2<int>, from: nat) returns (i: nat)
      requires outdata.Length1 == 2 && from <= outdata.Length0 && cursor <= |modulation|
      modifies this`cursor, outdata
      ensures from <= i <= outdata.Length0 && cursor == old(cursor) + i - from <= |modulation|
      ensures i < outdata.Length0 ==> cursor == |modulation|
      ensures forall k :: 0 <= k < from ==> outdata[k, 0] == old(outdata[k, 0]) && outdata[k, 1] == old(outdata[k, 1])
      ensures forall k :: from <= k < i ==>
        outdata[k, 0] == modulation[old(cursor) + k - from] && outdata[k, 1] == outdata[k, 0]
    {
      i := from;
      if i < outdata.Length0 {
        var remaining := |modulation| - cursor;
        var n := if outdata.Length0 - i < remaining then outdata.Length0 - i else remaining;
        if n > 0 {
          CopyBoth(outdata, i, modulation[cursor..cursor + n]);
          cursor := cursor + n;
          i := i + n;
        }
      }
    }

    /** Fills the block with the next samples of the stream, the same on both
        channels. */
    method AudioCallback(outdata: array2<int>)
      requires Valid() && outdata.Length1 == 2
      modifies this, outdata
      ensures Valid()
      ensures silence == old(silence) && frame == old(frame)
      ensures var n := outdata.Length0;
        && emitted == old(emitted) + Samples(silence, frame, |old(emitted)|, n)
        && forall k :: 0 <= k < n ==>
             outdata[k, 0] == Stream(silence, frame, |old(emitted)| + k) && outdata[k, 1] == outdata[k, 0]
      ensures old(loaded) ==> (frameDone <==> |emitted| > silence + |frame|) && loaded == !frameDone
      ensures !old(loaded) ==> frameDone == old(frameDone) && !loaded
    {
      var frames := outdata.Length0;
      ghost var start := |emitted|;
      SamplesJoin(silence, frame, start, frames);
      emitted := emitted + Samples(silence, frame, start, frames);
      if !loaded {
        FillZeros(outdata, 0, frames);
        return;
      }
      var i := EmitSilence(outdata);
      i := EmitModulation(outdata, i);
      if i < frames {
        FillZeros(outdata, i, frames);
        if cursor >= |modulation| {
          loaded := false;
          frameDone := true;
        }
      }
    }
  }

  method FillZeros(outdata: array2<int>, from: nat, to: nat)
    requires outdata.Length1 == 2 && from <= to <= outdata.Length0
    modifies outdata
    ensures forall k :: from <= k < to ==> outdata[k, 0] == 0 && outdata[k, 1] == 0
    ensures forall k :: 0 <= k < from || to <= k < outdata.Length0 ==>
      outdata[k, 0] == old(outdata[k, 0]) && outdata[k, 1] == old(outdata[k, 1])
  {
    forall k, c | from <= k < to && 0 <= c < 2 { outdata[k, c] := 0; }
  }

  method CopyBoth(outdata: array2<int>, at: nat, samples: seq<int>)
    requires outdata.Length1 == 2 && at + |samples| <= outdata.Length0
    modifies outdata
    ensures forall k :: at <= k < at + |samples| ==>
      outdata[k, 0] == samples[k - at] && outdata[k, 1] == samples[k - at]
    ensures forall k :: 0 <= k < at || at + |samples| <= k < outdata.Length0 ==>
      outdata[k, 0] == old(outdata[k, 0]) && outdata[k, 1] == old(outdata[k, 1])
  {
    forall k, c | at <= k < at + |samples| && 0 <= c < 2 { outdata[k, c] := samples[k - at]; }
  }

  // ---- Whole runs of blocks ----

  function Total(blocks: seq<nat>): nat {
    if blocks == [] then 0 else Total(blocks[..|blocks| - 1]) + blocks[|blocks| - 1]
  }

  lemma TotalNext(blocks: seq<nat>, k: nat)
    requires k < |blocks|
    ensures Total(blocks[..k + 1]) == Total(blocks[..k]) + blocks[k]
  {
    assert blocks[..k + 1][..k] == blocks[..k];
  }

  lemma StreamShape(silence: nat, modulation: seq<int>, n: nat)
    requires n >= silence + |modulation|
    ensures Samples(silence, modulation, 0, n)
         == Repeat(0, silence) + modulation + Repeat(0, n - silence - |modulation|)
  {
  }

  /** The audio thread's calls on an armed frame, for blocks of any sizes: all
      that goes out is the start of the stream, and the frame is done by the
      first block that reaches past its last sample, with every sample out. */
  method Play(playback: AudioPlayback, blocks: seq<nat>)
    requires playback.Valid() && playback.loaded && playback.emitted == []
    modifies playback
    ensures playback.Valid() && playback.silence == old(playback.silence) && playback.frame == old(playback.frame)
    ensures playback.emitted == Samples(playback.silence, playback.frame, 0, Total(blocks))
    ensures playback.frameDone <==> Total(blocks) > playback.silence + |playback.frame|
    ensures playback.frameDone ==>
      Repeat(0, playback.silence) + playback.frame <= playback.emitted
  {
    for i := 0 to |blocks|
      invariant playback.Valid() && playback.silence == old(playback.silence) && playback.frame == old(playback.frame)
      invariant |playback.emitted| == Total(blocks[..i]) && playback.loaded == !playback.frameDone
      invariant playback.frameDone <==> |playback.emitted| > playback.silence + |playback.frame|
    {
      TotalNext(blocks, i);
      var outdata := new int[blocks[i], 2];
      playback.AudioCallback(outdata);
    }
    assert blocks[..|blocks|] == blocks;
    if playback.frameDone { StreamShape(playback.silence, playback.frame, Total(blocks)); }
  }
}
