/** A MSG body split over frames comes back whole, whatever else is on the band;
    and the way in which a part of one passes for checked. */
module Fragments {
  import opened Text
  import opened Sequences
  import opened Checksum
  import opened Reassembly
  import opened ReassemblyRuns
  import ReassemblyLaws

  lemma {:induction false} ChunkInFlatten(chunks: seq<Text>, k: nat)
    requires k < |chunks|
    ensures forall c :: c in chunks[k] ==> c in Flatten(chunks)
    decreases |chunks|
  {
    if k < |chunks| - 1 {
      ChunkInFlatten(chunks[..|chunks| - 1], k);
    }
  }

  lemma {:induction false} PrefixOfFlatten(chunks: seq<Text>, k: nat)
    requires k <= |chunks|
    ensures |Flatten(chunks[..k])| <= |Flatten(chunks)|
    ensures Flatten(chunks[..k]) == Flatten(chunks)[..|Flatten(chunks[..k])|]
    decreases |chunks|
  {
    if k == |chunks| {
      assert chunks[..k] == chunks;
    } else {
      PrefixOfFlatten(chunks[..|chunks| - 1], k);
      assert chunks[..|chunks| - 1][..k] == chunks[..k];
    }
  }

  // ---- The fragmented message ----

  /** How a station sends a MSG: the envelope with the first chunk, then bare text. */
  datatype Sending = Sending(from: Text, to: Text, chunks: seq<Text>, freqs: seq<real>, times: seq<real>)

  function FrameAt(s: Sending, k: nat): ParsedFrame
    requires k < |s.chunks| == |s.freqs|
  {
    if k == 0 then ParsedFrame(DirectedMessage, Some(s.from), Some(s.to), "MSG " + s.chunks[0], s.freqs[0])
    else ParsedFrame(Unknown, None, None, s.chunks[k], s.freqs[k])
  }

  function Frames(s: Sending, n: nat): (evs: seq<Event>)
    requires n <= |s.chunks| == |s.freqs| == |s.times|
    ensures |evs| == n
  {
    seq(n, k requires 0 <= k < n => Heard(FrameAt(s, k), s.times[k]))
  }

  /** The body that the source's protocol can carry intact. */
  ghost predicate Carriable(body: Text) {
    && body != [] && !IsSpace(body[0]) && EOT !in body
    && !StartsWithUpper(body, "TO:")
  }

  /** The chunks of one body with its checksum, at one offset, without long gaps. */
  ghost predicate Splits(cfg: Timeouts, s: Sending, body: Text) {
    && Carriable(body) && s.from != []
    && |s.chunks| == |s.freqs| == |s.times| > 0
    && Flatten(s.chunks) == WithChecksum(body)
    && (forall k :: 0 < k < |s.chunks| ==> s.chunks[k] != [])
    && (forall k :: 0 < k < |s.chunks| ==> BucketOffset(s.freqs[k]) == BucketOffset(s.freqs[0]))
    && (forall k :: 0 < k < |s.chunks| ==> s.times[k - 1] <= s.times[k] <= s.times[k - 1] + cfg.frame)
  }

  /** What the first `k` chunks verify as, on their own. */
  function PrefixBody(s: Sending, k: nat): Option<Text>
    requires k <= |s.chunks|
  {
    VerifyChecksum16(Flatten(s.chunks[..k]))
  }

  /** No proper prefix happens to end in its own checksum. */
  ghost predicate NoEarlyMatch(s: Sending) {
    forall k :: 0 < k < |s.chunks| ==> PrefixBody(s, k) == None
  }

  function Verifies(s: Sending): nat -> bool {
    (k: nat) => k <= |s.chunks| && PrefixBody(s, k).Some?
  }

  /** The first number from `k` on with the property, or `n`. */
  function FirstFrom(p: nat -> bool, k: nat, n: nat): (r: nat)
    requires k <= n
    ensures k <= r <= n && (r < n ==> p(r)) && forall j :: k <= j < r ==> !p(j)
    decreases n - k
  {
    if k == n || p(k) then k else FirstFrom(p, k + 1, n)
  }

  /** The first number of chunks that verify. */
  function FirstMatch(s: Sending): nat
    requires s.chunks != []
  {
    FirstFrom(Verifies(s), 1, |s.chunks|)
  }

  function KeyFor(s: Sending): Key
    requires s.freqs != []
  {
    Key(s.from, UpperText(s.to), BucketOffset(s.freqs[0]))
  }

  /** The buffer after `k` chunks. */
  function Partial(s: Sending, k: nat): Buffer
    requires 0 < k <= |s.chunks| == |s.freqs| == |s.times|
  {
    var key := KeyFor(s);
    Buffer(key.from, key.to, Msg, key.bucket, s.freqs[k - 1], Flatten(s.chunks[..k]),
           s.times[0], s.times[k - 1], k, true)
  }

  /** The message that the first `k` chunks make, if they verify as `body`. */
  function Made(s: Sending, k: nat, body: Text): Message
    requires 0 < k <= |s.chunks| == |s.freqs| == |s.times|
  {
    Emit(Partial(s, k), true, s.times[k - 1]).(body := body)
  }

  function Whole(s: Sending, body: Text): Message
    requires |s.chunks| == |s.freqs| == |s.times| > 0
  {
    Made(s, |s.chunks|, body)
  }

  lemma MsgEnvelope(c: Text)
    requires (c != [] ==> !IsSpace(c[0])) && (|c| >= 3 ==> UpperText(c[..3]) != "TO:")
    ensures var b := "MSG " + c;
      && LStrip(b) == b && !StartsWithUpper(b, "MSG TO:") && StartsWithUpper(b, "MSG") && WordEnds(b, 3)
      && LStrip(b[3..]) == c
  {
    var b: Text := "MSG " + c;
    assert b[0] == 'M' && b[3] == ' ';
    assert b[3..] == [' '] + c && ([' '] + c)[1..] == c;
    assert b[..3] == "MSG";
    if |c| >= 3 { AfterMsg(c); }
  }

  lemma AfterMsg(c: Text)
    requires |c| >= 3
    ensures UpperText(("MSG " + c)[..7])[4..] == UpperText(c[..3])
  {
    assert ("MSG " + c)[..7][4..] == c[..3];
  }

  lemma FirstChunk(cfg: Timeouts, s: Sending, body: Text)
    requires Splits(cfg, s, body)
    ensures var c := s.chunks[0]; |c| <= |WithChecksum(body)| && c == WithChecksum(body)[..|c|]
  {
    PrefixOfFlatten(s.chunks, 1);
    FlattenNext(s.chunks, 0);
    assert Flatten(s.chunks[..1]) == [] + s.chunks[0] == s.chunks[0];
  }

  lemma FirstRole(cfg: Timeouts, s: Sending, body: Text)
    requires Splits(cfg, s, body)
    ensures RoleOf(FrameAt(s, 0)) == BufferedStarter(Msg, s.chunks[0])
  {
    var c := s.chunks[0];
    FirstChunk(cfg, s, body);
    if |c| >= 3 { ChecksumPrefix(body, c); }
    assert c != [] ==> c[0] == body[0];
    MsgEnvelope(c);
    ClassifyEnvelope(FrameAt(s, 0), c);
  }

  lemma ClassifyEnvelope(f: ParsedFrame, c: Text)
    requires f.kind.DirectedMessage? && OrEmpty(f.fromCall) != []
    requires var b := f.body;
      && b != [] && LStrip(b) == b && !StartsWithUpper(b, "MSG TO:") && StartsWithUpper(b, "MSG") && WordEnds(b, 3)
      && LStrip(b[3..]) == c
    ensures RoleOf(f) == BufferedStarter(Msg, c)
  {
  }

  lemma ChecksumPrefix(body: Text, c: Text)
    requires Carriable(body) && |c| <= |body| + 4 && c == WithChecksum(body)[..|c|] && |c| >= 3
    ensures UpperText(c[..3]) != "TO:"
  {
    var t := WithChecksum(body);
    if |body| >= 3 {
      assert c[..3] == body[..3];
    } else {
      assert t[|body|] == ' ' && c[..3][|body|] == ' ';
      assert UpperText(c[..3])[|body|] == ' ';
    }
  }

  lemma NoEotSent(body: Text)
    requires EOT !in body
    ensures EOT !in WithChecksum(body)
  {
    ChecksumChars(body);
    var t := WithChecksum(body);
    forall i | 0 <= i < |t| ensures t[i] != EOT {
      assert t[i] == if i < |body| then body[i] else if i == |body| then ' ' else Checksum16(body)[i - |body| - 1];
    }
  }

  lemma NoEotInside(cfg: Timeouts, s: Sending, body: Text, k: nat)
    requires Splits(cfg, s, body) && k < |s.chunks|
    ensures EOT !in s.chunks[k] && Without(s.chunks[k], EOT) == s.chunks[k]
  {
    NoEotSent(body);
    ChunkInFlatten(s.chunks, k);
    WithoutAbsent(s.chunks[k], EOT);
  }

  /** What hearing frame `k` leads to, if the message is not yet complete. */
  function Awaited(s: Sending, k: nat): Outcome
    requires k < |s.chunks| == |s.freqs| == |s.times|
  {
    match PrefixBody(s, k + 1)
    case Some(body) => Outcome([], [Made(s, k + 1, body)], [])
    case None => Outcome([Entry(KeyFor(s), Partial(s, k + 1))], [], [])
  }

  /** A starter with nothing in flight. */
  lemma StartOne(cfg: Timeouts, f: ParsedFrame, rest: Text, now: real, validated: Option<Text>)
    requires RoleOf(f) == BufferedStarter(Msg, rest)
    requires Without(rest, EOT) == rest && validated == VerifyChecksum16(rest) && (validated.Some? ==> rest != [])
    ensures AfterFeed(cfg, [], f, now)
         == match validated
            case Some(body) => Outcome([], [Single(f, Msg, body, rest, now)], [])
            case None => Outcome([Entry(KeyOf(f), NewBuffer(f, Msg, rest, now, true))], [], [])
  {
    assert SingleFrame(f, Msg, rest, now)
        == match validated case Some(body) => Some(Single(f, Msg, body, rest, now)) case None => None;
    assert AfterFeed(cfg, [], f, now) == OnBufferedStarter([], f, Msg, rest, now);
  }

  lemma FirstPartial(s: Sending)
    requires |s.chunks| == |s.freqs| == |s.times| > 0 && s.from != []
    ensures Flatten(s.chunks[..1]) == s.chunks[0]
    ensures KeyOf(FrameAt(s, 0)) == KeyFor(s)
    ensures NewBuffer(FrameAt(s, 0), Msg, s.chunks[0], s.times[0], true) == Partial(s, 1)
    ensures forall body :: Single(FrameAt(s, 0), Msg, body, s.chunks[0], s.times[0]) == Made(s, 1, body)
  {
    FlattenNext(s.chunks, 0);
    assert Flatten(s.chunks[..1]) == [] + s.chunks[0] == s.chunks[0];
  }

  /** The first frame opens the buffer, or completes a one-frame message. */
  lemma FirstFrame(cfg: Timeouts, s: Sending, body: Text)
    requires Splits(cfg, s, body)
    ensures AfterFeed(cfg, [], FrameAt(s, 0), s.times[0]) == Awaited(s, 0)
  {
    FirstRole(cfg, s, body);
    NoEotInside(cfg, s, body, 0);
    FirstPartial(s);
    StartOne(cfg, FrameAt(s, 0), s.chunks[0], s.times[0], PrefixBody(s, 1));
  }

  /** A continuation in good time, with one buffer in flight. */
  lemma ContinueOne(cfg: Timeouts, key: Key, b: Buffer, f: ParsedFrame, now: real)
    requires RoleOf(f) == Continuation && !Stale(cfg, b, now)
    requires InReach(BucketOffset(f.frequency), f.frequency)(Entry(key, b))
    ensures var e := Extend(b, f, now);
      AfterFeed(cfg, [Entry(key, b)], f, now)
      == Conclude([Entry(key, b)], key, e, VerifyChecksum16(e.body), EOT in f.body, now)
  {
    var es := [Entry(key, b)];
    FilterAll(es, Live(cfg, now));
    FilterNone(es, Expired(cfg, now));
    FilterNone(es, Lapsed(cfg, now));
    FilterAll(es, InReach(BucketOffset(f.frequency), f.frequency));
    var r := OnContinuation(es, f, now);
    assert AfterFeed(cfg, es, f, now) == Outcome(r.entries, [] + r.out, [] + r.lost);
    assert [] + r.out == r.out && [] + r.lost == r.lost;
  }

  lemma ConcludeOne(key: Key, b: Buffer, e: Buffer, validated: Option<Text>, now: real)
    requires e.buffered
    ensures Conclude([Entry(key, b)], key, e, validated, false, now)
         == match validated
            case Some(body) => Outcome([], [Emit(e, true, now).(body := body)], [])
            case None => Outcome([Entry(key, e)], [], [])
  {
    FilterNone([Entry(key, b)], NotKey(key));
  }

  lemma PartialGrows(cfg: Timeouts, s: Sending, body: Text, k: nat)
    requires Splits(cfg, s, body) && 0 < k < |s.chunks|
    ensures Extend(Partial(s, k), FrameAt(s, k), s.times[k]) == Partial(s, k + 1)
    ensures EOT !in FrameAt(s, k).body
  {
    NoEotInside(cfg, s, body, k);
    FlattenNext(s.chunks, k);
  }

  /** All the chunks together verify as the body. */
  lemma AllVerify(cfg: Timeouts, s: Sending, body: Text)
    requires Splits(cfg, s, body)
    ensures PrefixBody(s, |s.chunks|) == Some(body)
  {
    assert s.chunks[..|s.chunks|] == s.chunks;
    ChecksumRoundTrip(body);
  }

  lemma FirstMatches(cfg: Timeouts, s: Sending, body: Text)
    requires Splits(cfg, s, body)
    ensures var k := FirstMatch(s);
      && 0 < k <= |s.chunks| && PrefixBody(s, k).Some? && (forall j :: 0 < j < k ==> PrefixBody(s, j) == None)
      && (k == |s.chunks| <==> NoEarlyMatch(s)) && (k == |s.chunks| ==> PrefixBody(s, k) == Some(body))
  {
    var k := FirstMatch(s);
    AllVerify(cfg, s, body);
    forall j | 0 < j < k ensures PrefixBody(s, j) == None { assert !Verifies(s)(j); }
    if k < |s.chunks| { assert Verifies(s)(k); }
  }

  lemma NextInReach(cfg: Timeouts, s: Sending, body: Text, k: nat)
    requires Splits(cfg, s, body) && 0 < k < |s.chunks|
    ensures var f := FrameAt(s, k);
      && InReach(BucketOffset(f.frequency), f.frequency)(Entry(KeyFor(s), Partial(s, k)))
      && !Stale(cfg, Partial(s, k), s.times[k])
      && RoleOf(f) == Continuation
  {
    ReassemblyLaws.SameBucketIsNear(s.freqs[k - 1], s.freqs[k]);
  }

  /** One buffer in flight, extended by a frame without an end mark. */
  lemma ExtendOne(cfg: Timeouts, key: Key, b: Buffer, f: ParsedFrame, now: real, e: Buffer, validated: Option<Text>)
    requires RoleOf(f) == Continuation && !Stale(cfg, b, now) && EOT !in f.body
    requires InReach(BucketOffset(f.frequency), f.frequency)(Entry(key, b))
    requires e == Extend(b, f, now) && e.buffered && validated == VerifyChecksum16(e.body)
    ensures AfterFeed(cfg, [Entry(key, b)], f, now)
         == match validated
            case Some(body) => Outcome([], [Emit(e, true, now).(body := body)], [])
            case None => Outcome([Entry(key, e)], [], [])
  {
    ContinueOne(cfg, key, b, f, now);
    ConcludeOne(key, b, e, validated, now);
  }

  /** A later frame extends the buffer, and completes it if it verifies. */
  lemma NextFrame(cfg: Timeouts, s: Sending, body: Text, k: nat)
    requires Splits(cfg, s, body) && 0 < k < |s.chunks|
    ensures AfterFeed(cfg, [Entry(KeyFor(s), Partial(s, k))], FrameAt(s, k), s.times[k]) == Awaited(s, k)
  {
    NextInReach(cfg, s, body, k);
    PartialGrows(cfg, s, body, k);
    ExtendOne(cfg, KeyFor(s), Partial(s, k), FrameAt(s, k), s.times[k], Partial(s, k + 1), PrefixBody(s, k + 1));
  }

  // ---- The whole sending ----

  lemma FramesNext(s: Sending, k: nat)
    requires k < |s.chunks| == |s.freqs| == |s.times|
    ensures Frames(s, k + 1) == Frames(s, k) + [Heard(FrameAt(s, k), s.times[k])]
  {
  }

  /** The step that hears frame `k`, wherever the wait for it began. */
  lemma SentNext(cfg: Timeouts, s: Sending, body: Text, k: nat)
    requires Splits(cfg, s, body) && k < |s.chunks| && (k > 0 ==> PrefixBody(s, k) == None)
    ensures Assembling(cfg)(if k == 0 then [] else Awaited(s, k - 1).entries, Heard(FrameAt(s, k), s.times[k]))
         == Awaited(s, k)
  {
    if k == 0 { FirstFrame(cfg, s, body); } else { NextFrame(cfg, s, body, k); }
  }

  /** Nothing comes out before a prefix verifies, and then exactly what it made. */
  lemma {:induction false} SentFrames(cfg: Timeouts, s: Sending, body: Text, n: nat)
    requires Splits(cfg, s, body) && 0 < n <= |s.chunks| && forall j :: 0 < j < n ==> PrefixBody(s, j) == None
    ensures Output(Assembling(cfg), [], Frames(s, n)) == Awaited(s, n - 1).out
    ensures Final(Assembling(cfg), [], Frames(s, n)) == Awaited(s, n - 1).entries
    decreases n
  {
    var k := n - 1;
    FramesNext(s, k);
    SentNext(cfg, s, body, k);
    if k > 0 { SentFrames(cfg, s, body, k); }
    AddLast(Assembling(cfg), Frames(s, k), if k == 0 then [] else Awaited(s, k - 1).entries,
            Heard(FrameAt(s, k), s.times[k]), Awaited(s, k));
  }

  lemma AddLast(m: Machine, evs: seq<Event>, es: seq<Entry>, last: Event, o: Outcome)
    requires Output(m, [], evs) == [] && Final(m, [], evs) == es && !last.TimeoutSweep? && m(es, last) == o
    ensures Output(m, [], evs + [last]) == o.out
    ensures Final(m, [], evs + [last]) == o.entries
  {
    OutputSplits(m, [], evs, [last]);
    FinalSplits(m, [], evs, [last]);
    OutputOne(m, es, last);
    assert [] + o.out == o.out;
  }

  /** Continuations of nothing are dropped. */
  lemma {:induction false} StrayFrames(cfg: Timeouts, evs: seq<Event>)
    requires forall ev :: ev in evs ==> ev.Heard? && RoleOf(ev.frame) == Continuation
    ensures Output(Assembling(cfg), [], evs) == []
    decreases |evs|
  {
    if evs != [] {
      assert Assembling(cfg)([], evs[0]) == Outcome([], [], []);
      StrayFrames(cfg, evs[1..]);
    }
  }

  /** The frames after the first `k`. */
  function FramesFrom(s: Sending, k: nat): (evs: seq<Event>)
    requires 0 < k <= |s.chunks| == |s.freqs| == |s.times|
    ensures |evs| == |s.chunks| - k
  {
    seq(|s.chunks| - k, j requires 0 <= j < |s.chunks| - k => Heard(FrameAt(s, k + j), s.times[k + j]))
  }

  lemma LaterFramesContinue(cfg: Timeouts, s: Sending, body: Text, k: nat)
    requires Splits(cfg, s, body) && 0 < k <= |s.chunks|
    ensures forall ev :: ev in FramesFrom(s, k) ==> ev.Heard? && RoleOf(ev.frame) == Continuation
  {
    var evs := FramesFrom(s, k);
    forall j | 0 <= j < |evs| ensures evs[j].Heard? && RoleOf(evs[j].frame) == Continuation {
      NextInReach(cfg, s, body, k + j);
    }
  }

  lemma FramesSplit(s: Sending, k: nat)
    requires 0 < k <= |s.chunks| == |s.freqs| == |s.times|
    ensures Frames(s, |s.chunks|) == Frames(s, k) + FramesFrom(s, k)
  {
  }

  /** A run that is over after its first part. */
  lemma OverAfter(m: Machine, xs: seq<Event>, ys: seq<Event>, out: seq<Message>)
    requires Output(m, [], xs) == out && Final(m, [], xs) == [] && Output(m, [], ys) == [] && Final(m, [], ys) == []
    ensures Output(m, [], xs + ys) == out && Final(m, [], xs + ys) == []
  {
    OutputSplits(m, [], xs, ys);
    FinalSplits(m, [], xs, ys);
    assert out + [] == out;
  }

  /** The whole sending makes one message: of the first chunks that verify. */
  lemma SendingMakes(cfg: Timeouts, s: Sending, body: Text)
    requires Splits(cfg, s, body)
    ensures var k := FirstMatch(s);
      PrefixBody(s, k).Some?
      && Output(Assembling(cfg), [], Frames(s, |s.chunks|)) == [Made(s, k, PrefixBody(s, k).value)]
    ensures Final(Assembling(cfg), [], Frames(s, |s.chunks|)) == []
  {
    var k := FirstMatch(s);
    FirstMatches(cfg, s, body);
    SentFrames(cfg, s, body, k);
    LaterFramesContinue(cfg, s, body, k);
    StrayFrames(cfg, FramesFrom(s, k));
    StrayFinal(cfg, FramesFrom(s, k));
    FramesSplit(s, k);
    OverAfter(Assembling(cfg), Frames(s, k), FramesFrom(s, k), [Made(s, k, PrefixBody(s, k).value)]);
  }

  lemma {:induction false} StrayFinal(cfg: Timeouts, evs: seq<Event>)
    requires forall ev :: ev in evs ==> ev.Heard? && RoleOf(ev.frame) == Continuation
    ensures Final(Assembling(cfg), [], evs) == []
    decreases |evs|
  {
    if evs != [] {
      assert Assembling(cfg)([], evs[0]) == Outcome([], [], []);
      StrayFinal(cfg, evs[1..]);
    }
  }

  function AtBucket(bucket: int): int -> bool { (b: int) => b == bucket }

  lemma OneMessage(cfg: Timeouts, a: int -> bool, frames: seq<Event>, end: real, m: Message)
    requires Output(Assembling(cfg), [], frames) == [m] && Final(Assembling(cfg), [], frames) == [] && a(m.offset)
    ensures Bag(a, Output(Assembling(cfg), [], frames + [CompletedSweep(end)])) == multiset{Untimed(m)}
  {
    var last := [CompletedSweep(end)];
    OutputSplits(Assembling(cfg), [], frames, last);
    assert Output(Assembling(cfg), [], last) == [] by { assert last[1..] == []; }
    assert [m] + [] == [m] && [m][1..] == [];
  }

  /** However the band is used elsewhere, a body with its checksum, split into
      any frames at one offset, is handed over once and whole exactly if no
      proper prefix of the frames happens to verify. */
  lemma FragmentationRoundTrip(cfg: Timeouts, s: Sending, body: Text, evs: seq<Event>, from: real, end: real)
    requires Splits(cfg, s, body)
    requires Ordered(evs + [CompletedSweep(end)], from)
    requires Restrict(AtBucket(BucketOffset(s.freqs[0])), evs) == Frames(s, |s.chunks|)
    ensures Bag(AtBucket(BucketOffset(s.freqs[0])), Output(Assembling(cfg), [], evs + [CompletedSweep(end)]))
         == multiset{Untimed(Whole(s, body))}
       <==> NoEarlyMatch(s)
  {
    var a, k := AtBucket(BucketOffset(s.freqs[0])), FirstMatch(s);
    NonInterference(cfg, a, [], evs, from, end);
    FirstMatches(cfg, s, body);
    SendingMakes(cfg, s, body);
    OneMessage(cfg, a, Frames(s, |s.chunks|), end, Made(s, k, PrefixBody(s, k).value));
    MadeIsWhole(s, k, PrefixBody(s, k).value, body);
  }

  lemma MadeIsWhole(s: Sending, k: nat, made: Text, body: Text)
    requires 0 < k <= |s.chunks| == |s.freqs| == |s.times| && (k == |s.chunks| ==> made == body)
    ensures multiset{Untimed(Made(s, k, made))} == multiset{Untimed(Whole(s, body))} <==> k == |s.chunks|
  {
    if k < |s.chunks| {
      assert Untimed(Made(s, k, made)).frameCount != Untimed(Whole(s, body)).frameCount;
      assert Untimed(Made(s, k, made)) !in multiset{Untimed(Whole(s, body))};
    }
  }

  // ---- Mail acknowledged without proof ----

  /** A MSG that was cut off, then any other words from the same station: the
      fragment is handed over as checked mail, to be acknowledged. */
  lemma CutOffMailIsAcknowledged(cfg: Timeouts, cut: ParsedFrame, rest: Text, start: real,
                                 words: ParsedFrame, later: real)
    requires RoleOf(cut) == BufferedStarter(Msg, rest) && Without(rest, EOT) == rest && VerifyChecksum16(rest) == None
    requires RoleOf(words) == NonBufferedStarter && KeyOf(words) == KeyOf(cut) && start <= later <= start + cfg.frame
    ensures var o := AfterFeed(cfg, [], cut, start);
      && o.out == []
      && exists m :: m in AfterFeed(cfg, o.entries, words, later).out
                     && ReassemblyLaws.AckEligible(m) && !ReassemblyLaws.CrcProven(m)
  {
    StartOne(cfg, cut, rest, start, None);
    var b := NewBuffer(cut, Msg, rest, start, true);
    var es := [Entry(KeyOf(cut), b)];
    FilterAll(es, Live(cfg, later));
    assert Lookup(es, KeyOf(words)) == Some(b);
    ReassemblyLaws.PreemptedComesOut(cfg, es, Heard(words, later));
    assert ReassemblyLaws.AckEligible(Emit(b, true, later));
  }

  lemma CutRole(f: ParsedFrame, rest: Text)
    requires f.kind.DirectedMessage? && OrEmpty(f.fromCall) != [] && f.body == "MSG " + rest
    requires rest != [] && |rest| < 3 && !IsSpace(rest[0])
    ensures RoleOf(f) == BufferedStarter(Msg, rest)
  {
    MsgEnvelope(rest);
    ClassifyEnvelope(f, rest);
  }

  /** For example, "MSG HI" and then "73". */
  lemma CutOffMailHappens(freq: real)
    ensures var cut := ParsedFrame(DirectedMessage, Some("W1AW"), Some("K1ABC"), "MSG HI", freq);
      var words := ParsedFrame(DirectedMessage, Some("W1AW"), Some("K1ABC"), "73", freq);
      && RoleOf(cut) == BufferedStarter(Msg, "HI") && Without("HI", EOT) == "HI" && VerifyChecksum16("HI") == None
      && RoleOf(words) == NonBufferedStarter && KeyOf(words) == KeyOf(cut)
  {
    assert "MSG HI" == "MSG " + "HI";
    CutRole(ParsedFrame(DirectedMessage, Some("W1AW"), Some("K1ABC"), "MSG HI", freq), "HI");
    WithoutAbsent("HI", EOT);
    TooShort("HI");
    ShortWord(ParsedFrame(DirectedMessage, Some("W1AW"), Some("K1ABC"), "73", freq));
  }

  lemma TooShort(text: Text)
    requires |text| < 5
    ensures VerifyChecksum16(text) == None
  {
    RStripShape(text);
  }

  lemma ShortWord(f: ParsedFrame)
    requires f.kind.DirectedMessage? && OrEmpty(f.fromCall) != [] && |f.body| == 2
    requires !IsSpace(f.body[0]) && f.body[0] != '>'
    ensures RoleOf(f) == NonBufferedStarter
  {
  }
}
