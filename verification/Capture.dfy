/** The capture ring: a snapshot is the last samples of the decimated input. */
module Capture {
  import opened Sequences

  const RX_BUFFER_SIZE := 720_000
  const CAPTURE_DECIMATION := 4

  /** `samples[::4]`. */
  function Decimate(samples: seq<int>): (r: seq<int>)
    ensures |r| == (|samples| + CAPTURE_DECIMATION - 1) / CAPTURE_DECIMATION
    ensures forall k :: 0 <= k < |r| ==> r[k] == samples[k * CAPTURE_DECIMATION]
  {
    seq((|samples| + CAPTURE_DECIMATION - 1) / CAPTURE_DECIMATION,
        k requires 0 <= k < (|samples| + CAPTURE_DECIMATION - 1) / CAPTURE_DECIMATION =>
          samples[k * CAPTURE_DECIMATION])
  }

  /** The last `n` samples of a stream. */
  function LastOf(stream: seq<int>, n: nat): seq<int>
    requires n <= |stream|
  {
    stream[|stream| - n..]
  }

  // ---- The ring's cells ----

  /** A ring read from a position on. */
  function Turn(ring: seq<int>, pos: nat): seq<int>
    requires pos <= |ring|
  {
    ring[pos..] + ring[..pos]
  }

  /** A slice assignment. */
  function Overlay(ring: seq<int>, at: nat, samples: seq<int>): seq<int>
    requires at + |samples| <= |ring|
  {
    ring[..at] + samples + ring[at + |samples|..]
  }

  /** The slices leave room for the samples: numpy refuses the second one if
      they run past the end of the ring twice. */
  predicate Fits(pos: nat, samples: seq<int>) { pos + |samples| <= 2 * RX_BUFFER_SIZE }

  /** The cells after the slices have been assigned; only the first, if the
      second is refused. */
  function Cells(ring: seq<int>, pos: nat, samples: seq<int>): seq<int>
    requires |ring| == RX_BUFFER_SIZE && pos < RX_BUFFER_SIZE
  {
    var first := RX_BUFFER_SIZE - pos;
    if |samples| <= first then Overlay(ring, pos, samples)
    else
      var half := Overlay(ring, pos, samples[..first]);
      if Fits(pos, samples) then Overlay(half, 0, samples[first..]) else half
  }

  /** A refused write does not move the position. */
  function NextPos(pos: nat, samples: seq<int>): nat {
    if Fits(pos, samples) then (pos + |samples|) % RX_BUFFER_SIZE else pos
  }

  class AudioCapture {
    const buffer: array<int>
    var writePos: nat
    var samplesSeen: nat

    ghost predicate Valid()
      reads this
    {
      buffer.Length == RX_BUFFER_SIZE && writePos < RX_BUFFER_SIZE
    }

    constructor ()
      ensures Valid() && fresh(buffer) && Recent() == Repeat(0, RX_BUFFER_SIZE)
    {
      buffer := new int[RX_BUFFER_SIZE](_ => 0);
      writePos, samplesSeen := 0, 0;
      new;
      assert buffer[..] == Repeat(0, RX_BUFFER_SIZE);
    }

    /** The ring from the oldest sample to the newest. */
    ghost function Recent(): seq<int>
      reads this, buffer
      requires Valid()
    {
      Turn(buffer[..], writePos)
    }

    /** A copy of the ring, oldest sample first. */
    method Snapshot() returns (copy: array<int>)
      requires Valid()
      ensures fresh(copy) && copy[..] == Recent()
    {
      var shift := writePos;
      copy := new int[RX_BUFFER_SIZE](k requires Valid() && shift == writePos && 0 <= k < RX_BUFFER_SIZE
        reads this, buffer =>
          if k < RX_BUFFER_SIZE - shift then buffer[shift + k] else buffer[k - (RX_BUFFER_SIZE - shift)]);
    }

    /** The ring moves on by the samples, if they fit. If not, those that fill
        it to its end take the place of the oldest, and nothing else changes. */
    method WriteIntoRing(samples: seq<int>) returns (ok: bool)
      requires Valid()
      modifies this, buffer
      ensures Valid() && (ok <==> Fits(old(writePos), samples))
      ensures Recent() == Taken(old(Recent()), old(writePos), samples)
      ensures writePos == NextPos(old(writePos), samples)
      ensures samplesSeen == if ok then old(samplesSeen) + |samples| else old(samplesSeen)
    {
      if samples == [] {
        TakesNothing(Recent(), writePos);
        return true;
      }
      ok := CopySlices(samples);
      if ok {
        samplesSeen := samplesSeen + |samples|;
      }
      writePos := NextPos(writePos, samples);
    }

    /** The slice assignments, seen from where the next write will start. */
    method CopySlices(samples: seq<int>) returns (ok: bool)
      requires Valid() && samples != []
      modifies buffer
      ensures (ok <==> Fits(writePos, samples))
      ensures Turn(buffer[..], NextPos(writePos, samples)) == Taken(old(Recent()), writePos, samples)
    {
      TurnsOn(buffer[..], writePos, samples);
      var first := RX_BUFFER_SIZE - writePos;
      if |samples| <= first {
        CopyInto(buffer, writePos, samples);
        return true;
      }
      CopyInto(buffer, writePos, samples[..first]);
      ok := Fits(writePos, samples);
      if ok { CopyInto(buffer, 0, samples[first..]); }
    }

    /** One block from the sound card. What a refused block raises is caught. */
    method OnAudio(indata: seq<int>)
      requires Valid()
      modifies this, buffer
      ensures Valid()
      ensures Recent() == Taken(old(Recent()), old(writePos), Decimate(indata))
    {
      var _ := WriteIntoRing(Decimate(indata));
    }
  }

  method CopyInto(buffer: array<int>, at: nat, samples: seq<int>)
    requires at + |samples| <= buffer.Length
    modifies buffer
    ensures buffer[..] == Overlay(old(buffer[..]), at, samples)
  {
    forall k | at <= k < at + |samples| { buffer[k] := samples[k - at]; }
  }

  // ---- One write ----

  /** What a write makes of the samples held, oldest first. */
  function Taken(recent: seq<int>, pos: nat, samples: seq<int>): (r: seq<int>)
    requires |recent| == RX_BUFFER_SIZE && pos < RX_BUFFER_SIZE
    ensures |r| == RX_BUFFER_SIZE
  {
    if Fits(pos, samples) then LastOf(recent + samples, RX_BUFFER_SIZE)
    else samples[..RX_BUFFER_SIZE - pos] + recent[RX_BUFFER_SIZE - pos..]
  }

  lemma TakesNothing(recent: seq<int>, pos: nat)
    requires |recent| == RX_BUFFER_SIZE && pos < RX_BUFFER_SIZE
    ensures Taken(recent, pos, []) == recent
  {
    assert recent + [] == recent;
  }

  lemma TurnedFull(ring: seq<int>, end: nat)
    requires |ring| == RX_BUFFER_SIZE && RX_BUFFER_SIZE <= end <= 2 * RX_BUFFER_SIZE
    ensures Turn(ring, end % RX_BUFFER_SIZE) == Turn(ring, end - RX_BUFFER_SIZE)
  {
    if end < 2 * RX_BUFFER_SIZE {
      assert end % RX_BUFFER_SIZE == end - RX_BUFFER_SIZE;
    } else {
      assert end % RX_BUFFER_SIZE == 0;
      assert Turn(ring, 0) == ring == Turn(ring, RX_BUFFER_SIZE);
    }
  }

  lemma Straight(ring: seq<int>, pos: nat, samples: seq<int>)
    requires |ring| == RX_BUFFER_SIZE && pos + |samples| <= RX_BUFFER_SIZE
    ensures Turn(Overlay(ring, pos, samples), pos + |samples|) == LastOf(Turn(ring, pos) + samples, RX_BUFFER_SIZE)
  {
    var over, end := Overlay(ring, pos, samples), pos + |samples|;
    assert over[end..] == ring[end..] && over[..end] == ring[..pos] + samples;
    assert ring[pos..][|samples|..] == ring[end..];
  }

  lemma TurnsStraight(ring: seq<int>, pos: nat, samples: seq<int>)
    requires |ring| == RX_BUFFER_SIZE && 0 < |samples| && pos + |samples| <= RX_BUFFER_SIZE
    ensures Turn(Overlay(ring, pos, samples), (pos + |samples|) % RX_BUFFER_SIZE)
         == LastOf(Turn(ring, pos) + samples, RX_BUFFER_SIZE)
  {
    Straight(ring, pos, samples);
    var over, end := Overlay(ring, pos, samples), pos + |samples|;
    if end < RX_BUFFER_SIZE {
      assert end % RX_BUFFER_SIZE == end;
    } else {
      TurnedFull(over, end);
      assert Turn(over, 0) == over == Turn(over, end);
    }
  }

  /** Filling the ring to its end leaves the newest of what it held, and the
      samples, from the front on. */
  lemma Filled(ring: seq<int>, pos: nat, fits: seq<int>)
    requires |ring| == RX_BUFFER_SIZE && pos + |fits| == RX_BUFFER_SIZE
    ensures Overlay(ring, pos, fits) == ring[..pos] + fits
  {
  }

  lemma Wrapped(full: seq<int>, head: seq<int>, tail: seq<int>)
    requires |full| == RX_BUFFER_SIZE && |tail| <= RX_BUFFER_SIZE
    ensures Turn(Overlay(full, 0, tail), |tail|) == LastOf(head + full + tail, RX_BUFFER_SIZE)
  {
    var over := Overlay(full, 0, tail);
    assert over == tail + full[|tail|..];
    assert over[|tail|..] == full[|tail|..] && over[..|tail|] == tail;
    assert LastOf(head + full + tail, RX_BUFFER_SIZE) == full[|tail|..] + tail;
  }

  lemma Regroup(a: seq<int>, b: seq<int>, c: seq<int>, d: seq<int>)
    ensures a + (b + c) + d == a + b + (c + d)
  {
  }

  lemma TurnsWrapped(ring: seq<int>, pos: nat, fits: seq<int>, tail: seq<int>)
    requires |ring| == RX_BUFFER_SIZE && pos + |fits| == RX_BUFFER_SIZE && |tail| <= RX_BUFFER_SIZE
    ensures Turn(Overlay(Overlay(ring, pos, fits), 0, tail), (RX_BUFFER_SIZE + |tail|) % RX_BUFFER_SIZE)
         == LastOf(Turn(ring, pos) + (fits + tail), RX_BUFFER_SIZE)
  {
    var full := Overlay(ring, pos, fits);
    Filled(ring, pos, fits);
    TurnedFull(Overlay(full, 0, tail), RX_BUFFER_SIZE + |tail|);
    Wrapped(full, ring[pos..], tail);
    Regroup(ring[pos..], ring[..pos], fits, tail);
  }

  lemma TurnsHalf(ring: seq<int>, pos: nat, fits: seq<int>)
    requires |ring| == RX_BUFFER_SIZE && pos + |fits| == RX_BUFFER_SIZE
    ensures Turn(Overlay(ring, pos, fits), pos) == fits + Turn(ring, pos)[|fits|..]
  {
    Filled(ring, pos, fits);
  }

  /** Read from its new position, the ring is what the write should leave. */
  lemma TurnsOn(ring: seq<int>, pos: nat, samples: seq<int>)
    requires |ring| == RX_BUFFER_SIZE && pos < RX_BUFFER_SIZE && samples != []
    ensures |Cells(ring, pos, samples)| == RX_BUFFER_SIZE
    ensures Turn(Cells(ring, pos, samples), NextPos(pos, samples))
         == Taken(Turn(ring, pos), pos, samples)
  {
    var first := RX_BUFFER_SIZE - pos;
    if |samples| <= first {
      TurnsStraight(ring, pos, samples);
    } else {
      var fits, tail := samples[..first], samples[first..];
      if Fits(pos, samples) {
        assert fits + tail == samples;
        TurnsWrapped(ring, pos, fits, tail);
      } else {
        TurnsHalf(ring, pos, fits);
      }
    }
  }

  // ---- Whole runs of blocks ----

  lemma DecimateJoins(a: seq<int>, b: seq<int>)
    requires |a| % CAPTURE_DECIMATION == 0
    ensures Decimate(a + b) == Decimate(a) + Decimate(b)
  {
    assert |a| == |Decimate(a)| * CAPTURE_DECIMATION;
  }

  lemma LastOfLast(a: seq<int>, b: seq<int>, c: seq<int>, n: nat)
    requires n <= |a|
    ensures LastOf(LastOf(a + b, n) + c, n) == LastOf(a + (b + c), n)
  {
    assert a + (b + c) == (a + b) + c;
  }

  lemma {:induction false} WholeGroups(blocks: seq<seq<int>>)
    requires forall b :: b in blocks ==> |b| % CAPTURE_DECIMATION == 0
    ensures |Flatten(blocks)| % CAPTURE_DECIMATION == 0
  {
    if blocks != [] {
      WholeGroups(blocks[..|blocks| - 1]);
    }
  }

  /** What the ring should hold after the first `i` blocks. */
  function Held(before: seq<int>, blocks: seq<seq<int>>, i: nat): seq<int>
    requires |before| == RX_BUFFER_SIZE && i <= |blocks|
  {
    LastOf(before + Decimate(Flatten(blocks[..i])), RX_BUFFER_SIZE)
  }

  lemma HeldNext(before: seq<int>, blocks: seq<seq<int>>, i: nat, pos: nat)
    requires |before| == RX_BUFFER_SIZE && i < |blocks| && pos < RX_BUFFER_SIZE
    requires forall b :: b in blocks ==> |b| % CAPTURE_DECIMATION == 0 && |Decimate(b)| <= RX_BUFFER_SIZE
    ensures Taken(Held(before, blocks, i), pos, Decimate(blocks[i])) == Held(before, blocks, i + 1)
  {
    var soFar := Flatten(blocks[..i]);
    WholeGroups(blocks[..i]);
    FlattenNext(blocks, i);
    DecimateJoins(soFar, blocks[i]);
    LastOfLast(before, Decimate(soFar), Decimate(blocks[i]), RX_BUFFER_SIZE);
  }

  lemma HeldAtFirst(before: seq<int>, blocks: seq<seq<int>>)
    requires |before| == RX_BUFFER_SIZE
    ensures Held(before, blocks, 0) == before
  {
    assert Decimate([]) == [] && before + [] == before;
  }

  /** The sound card's calls, block after block: if the blocks are whole groups
      of four and fit the ring, it holds the last samples of what it held before
      and of one decimation of the whole input. */
  method Record(capture: AudioCapture, blocks: seq<seq<int>>)
    requires capture.Valid()
    requires forall b :: b in blocks ==> |b| % CAPTURE_DECIMATION == 0 && |Decimate(b)| <= RX_BUFFER_SIZE
    modifies capture, capture.buffer
    ensures capture.Valid()
    ensures capture.Recent() == LastOf(old(capture.Recent()) + Decimate(Flatten(blocks)), RX_BUFFER_SIZE)
  {
    ghost var before := capture.Recent();
    HeldAtFirst(before, blocks);
    for i := 0 to |blocks|
      invariant capture.Valid() && capture.Recent() == Held(before, blocks, i)
    {
      HeldNext(before, blocks, i, capture.writePos);
      capture.OnAudio(blocks[i]);
    }
    assert blocks[..|blocks|] == blocks;
  }

  /** Every snapshot is the last samples of silence followed by every fourth
      sample of the whole input. */
  method SnapshotAfter(blocks: seq<seq<int>>) returns (snapshot: array<int>)
    requires forall b :: b in blocks ==> |b| % CAPTURE_DECIMATION == 0 && |Decimate(b)| <= RX_BUFFER_SIZE
    ensures snapshot[..] == LastOf(Repeat(0, RX_BUFFER_SIZE) + Decimate(Flatten(blocks)), RX_BUFFER_SIZE)
    ensures ShowsInput(snapshot[..], Flatten(blocks))
  {
    var capture := new AudioCapture();
    Record(capture, blocks);
    snapshot := capture.Snapshot();
    LastShowsInput(Flatten(blocks));
  }

  /** The ring ends with every fourth sample of the input, behind silence. */
  ghost predicate ShowsInput(ring: seq<int>, input: seq<int>) {
    |ring| == RX_BUFFER_SIZE
    && forall p :: 0 <= p < RX_BUFFER_SIZE ==>
         ring[p] == var k := (|input| + 3) / 4 - RX_BUFFER_SIZE + p; if k >= 0 then input[4 * k] else 0
  }

  lemma LastShowsInput(input: seq<int>)
    ensures ShowsInput(LastOf(Repeat(0, RX_BUFFER_SIZE) + Decimate(input), RX_BUFFER_SIZE), input)
  {
    var all := Repeat(0, RX_BUFFER_SIZE) + Decimate(input);
    var ring := LastOf(all, RX_BUFFER_SIZE);
    forall p | 0 <= p < RX_BUFFER_SIZE ensures ring[p] == all[|all| - RX_BUFFER_SIZE + p] {}
  }
}
