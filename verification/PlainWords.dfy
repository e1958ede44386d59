/** A message without a buffered verb: handed over once and whole, with its spaces
    restored, when nothing has followed for longer than its timeout. */
module PlainWords {
  import opened Text
  import opened Sequences
  import opened Checksum
  import opened Reassembly
  import opened ReassemblyRuns
  import opened ReassemblyLaws
  import opened Histories
  import Fates
  import Fragments

  /** Frames of one message at one offset: the first is directed and begins no
      buffered message, the others are bare text, without long gaps. */
  ghost predicate Said(cfg: Timeouts, frames: seq<ParsedFrame>, times: seq<real>) {
    && |frames| == |times| > 0
    && OrEmpty(frames[0].fromCall) != [] && frames[0].body != [] && ClassifyFirstFrame(frames[0]).None?
    && frames[0].kind in {DirectedMessage, DirectedCommand, DirectedQuery}
    && (forall k :: 0 < k < |frames| ==> frames[k].kind.Unknown? && frames[k].body != [])
    && (forall k :: 0 < k < |frames| ==> BucketOffset(frames[k].frequency) == BucketOffset(frames[0].frequency))
    && (forall k :: 0 < k < |frames| ==> times[k - 1] <= times[k] <= times[k - 1] + cfg.nonBuffered)
  }

  function Events(frames: seq<ParsedFrame>, times: seq<real>, n: nat): (evs: seq<Event>)
    requires n <= |frames| == |times|
    ensures |evs| == n
  {
    seq(n, k requires 0 <= k < n => Heard(frames[k], times[k]))
  }

  function Texts(frames: seq<ParsedFrame>): (texts: seq<Text>)
    ensures |texts| == |frames|
  {
    seq(|frames|, k requires 0 <= k < |frames| => Without(frames[k].body, EOT))
  }

  /** The buffer after `n` frames. */
  function Held(frames: seq<ParsedFrame>, times: seq<real>, n: nat): Buffer
    requires 0 < n <= |frames| == |times|
  {
    var key, texts := KeyOf(frames[0]), Texts(frames);
    Buffer(key.from, key.to, Other(FirstWord(texts[0])), key.bucket, frames[n - 1].frequency, Weave(texts[..n], false),
           times[0], times[n - 1], n, false)
  }

  /** The message that all the frames make. */
  function Spoken(frames: seq<ParsedFrame>, times: seq<real>, now: real): Message
    requires |frames| == |times| > 0
  {
    var f, text := frames[0], Weave(Texts(frames), false);
    Message(OrEmpty(f.fromCall), UpperText(OrEmpty(f.toCall)), Other(FirstWord(Without(f.body, EOT))), text, true, text,
            BucketOffset(f.frequency), times[0], now, |frames|, false)
  }

  lemma HeldFirst(cfg: Timeouts, frames: seq<ParsedFrame>, times: seq<real>)
    requires Said(cfg, frames, times)
    ensures AfterFeed(cfg, [], frames[0], times[0])
         == Outcome([Entry(KeyOf(frames[0]), Held(frames, times, 1))], [], [])
  {
    var f, texts := frames[0], Texts(frames);
    assert RoleOf(f) == NonBufferedStarter;
    assert texts[..1] == [texts[0]];
    assert Weave(texts[..1], false) == texts[0];
    FirstOfNothing(cfg, f, times[0], NewBuffer(f, Other(FirstWord(texts[0])), texts[0], times[0], false));
  }

  lemma FirstOfNothing(cfg: Timeouts, f: ParsedFrame, now: real, b: Buffer)
    requires RoleOf(f) == NonBufferedStarter
    requires b == NewBuffer(f, Other(FirstWord(Without(f.body, EOT))), Without(f.body, EOT), now, false)
    ensures AfterFeed(cfg, [], f, now) == Outcome([Entry(KeyOf(f), b)], [], [])
  {
    var r := OnNonBufferedStarter([], f, now);
    assert r == Outcome([] + [Entry(KeyOf(f), b)], [], []);
  }

  lemma HeldGrows(frames: seq<ParsedFrame>, times: seq<real>, n: nat)
    requires 0 < n < |frames| == |times|
    ensures Extend(Held(frames, times, n), frames[n], times[n]) == Held(frames, times, n + 1)
  {
    var texts := Texts(frames);
    assert texts[..n + 1][..n] == texts[..n] && texts[..n + 1][n] == Without(frames[n].body, EOT);
  }

  lemma HeldNext(cfg: Timeouts, frames: seq<ParsedFrame>, times: seq<real>, n: nat)
    requires Said(cfg, frames, times) && 0 < n < |frames|
    ensures AfterFeed(cfg, [Entry(KeyOf(frames[0]), Held(frames, times, n))], frames[n], times[n])
         == Outcome([Entry(KeyOf(frames[0]), Held(frames, times, n + 1))], [], [])
  {
    var key, b, f, now := KeyOf(frames[0]), Held(frames, times, n), frames[n], times[n];
    SameBucketIsNear(frames[n - 1].frequency, f.frequency);
    HeldGrows(frames, times, n);
    Fragments.ContinueOne(cfg, key, b, f, now);
    KeepOne(key, b, Held(frames, times, n + 1), VerifyChecksum16(Held(frames, times, n + 1).body), EOT in f.body, now);
  }

  lemma KeepOne(key: Key, b: Buffer, e: Buffer, validated: Option<Text>, eot: bool, now: real)
    requires !e.buffered
    ensures Conclude([Entry(key, b)], key, e, validated, eot, now) == Outcome([Entry(key, e)], [], [])
  {
    var es := [Entry(key, b)];
    assert es[1..] == [];
    assert Put(es, key, e) == [Entry(key, e)] + Put(es[1..], key, e);
  }

  lemma {:induction false} HeldAfter(cfg: Timeouts, frames: seq<ParsedFrame>, times: seq<real>, n: nat)
    requires Said(cfg, frames, times) && 0 < n <= |frames|
    ensures Output(Assembling(cfg), [], Events(frames, times, n)) == []
    ensures Final(Assembling(cfg), [], Events(frames, times, n)) == [Entry(KeyOf(frames[0]), Held(frames, times, n))]
    decreases n
  {
    var k := n - 1;
    assert Events(frames, times, n) == Events(frames, times, k) + [Heard(frames[k], times[k])];
    if k > 0 {
      HeldAfter(cfg, frames, times, k);
      HeldNext(cfg, frames, times, k);
    } else {
      HeldFirst(cfg, frames, times);
    }
    Fragments.AddLast(Assembling(cfg), Events(frames, times, k),
                      if k == 0 then [] else [Entry(KeyOf(frames[0]), Held(frames, times, k))],
                      Heard(frames[k], times[k]),
                      Outcome([Entry(KeyOf(frames[0]), Held(frames, times, n))], [], []));
  }

  lemma LastSweep(cfg: Timeouts, a: int -> bool, frames: seq<Event>, key: Key, b: Buffer, end: real)
    requires Output(Assembling(cfg), [], frames) == [] && Final(Assembling(cfg), [], frames) == [Entry(key, b)]
    requires a(b.bucket) && !b.buffered
    ensures Bag(a, Output(Assembling(cfg), [], frames + [CompletedSweep(end)]))
         == if b.lastFrameAt + cfg.nonBuffered < end then multiset{Untimed(Emit(b, true, end))} else multiset{}
  {
    var last, es := [CompletedSweep(end)], [Entry(key, b)];
    OutputSplits(Assembling(cfg), [], frames, last);
    OutputOne(Assembling(cfg), es, last[0]);
    assert es[1..] == [];
    if Expired(cfg, end)(es[0]) {
      FilterAll(es, Expired(cfg, end));
      var out := Map(es, Emitter(true, end));
      assert out == [Emit(b, true, end)] && out[1..] == [];
    } else {
      FilterNone(es, Expired(cfg, end));
    }
  }

  /** However the band is used elsewhere: the message is handed over once, whole,
      and in order, by the first sweep after its timeout and by none before. */
  lemma WordsRoundTrip(cfg: Timeouts, frames: seq<ParsedFrame>, times: seq<real>, evs: seq<Event>,
                       from: real, end: real)
    requires Said(cfg, frames, times) && Ordered(evs + [CompletedSweep(end)], from)
    requires Restrict(Fragments.AtBucket(BucketOffset(frames[0].frequency)), evs) == Events(frames, times, |frames|)
    ensures Bag(Fragments.AtBucket(BucketOffset(frames[0].frequency)),
                Output(Assembling(cfg), [], evs + [CompletedSweep(end)]))
         == if times[|frames| - 1] + cfg.nonBuffered < end
            then multiset{Untimed(Spoken(frames, times, end))} else multiset{}
  {
    var a := Fragments.AtBucket(BucketOffset(frames[0].frequency));
    NonInterference(cfg, a, [], evs, from, end);
    WordsAlone(cfg, frames, times, end);
  }

  lemma WordsAlone(cfg: Timeouts, frames: seq<ParsedFrame>, times: seq<real>, end: real)
    requires Said(cfg, frames, times)
    ensures Bag(Fragments.AtBucket(BucketOffset(frames[0].frequency)),
                Output(Assembling(cfg), [], Events(frames, times, |frames|) + [CompletedSweep(end)]))
         == if times[|frames| - 1] + cfg.nonBuffered < end
            then multiset{Untimed(Spoken(frames, times, end))} else multiset{}
  {
    var n := |frames|;
    HeldAfter(cfg, frames, times, n);
    HeldIsSpoken(frames, times, end);
    LastSweep(cfg, Fragments.AtBucket(BucketOffset(frames[0].frequency)), Events(frames, times, n),
              KeyOf(frames[0]), Held(frames, times, n), end);
  }

  lemma HeldIsSpoken(frames: seq<ParsedFrame>, times: seq<real>, now: real)
    requires |frames| == |times| > 0
    ensures Emit(Held(frames, times, |frames|), true, now) == Spoken(frames, times, now)
  {
    assert Texts(frames)[..|frames|] == Texts(frames);
  }

  /** For example, "73 DE" and "W1AW" are heard as "73 DEW1AW", as they were sent,
      but "AT 5" and "PM" as "AT 5 PM". */
  lemma SpaceIsRestored()
    ensures Weave(["AT 5", "PM"], false) == "AT 5 PM" && Weave(["AT 5", "PM"], true) == "AT 5PM"
    ensures Weave(["73 DE", "W1AW"], false) == "73 DEW1AW"
  {
    assert ["AT 5", "PM"][..1] == ["AT 5"] && ["73 DE", "W1AW"][..1] == ["73 DE"];
    var a: Text, b: Text := "AT 5", "PM";
    assert Weave([a, b], false) == Join(a, b, false);
    assert Weave([a, b], true) == Join(a, b, true);
    assert Weave(["73 DE", "W1AW"], false) == Join("73 DE", "W1AW", false);
  }
}
