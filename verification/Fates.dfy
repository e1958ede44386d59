/** What becomes of every buffer when a frame is heard or the buffers are swept,
    told by the buffers' own fields. */
module Fates {
  import opened Text
  import opened Sequences
  import opened Checksum
  import opened Reassembly
  import opened ReassemblyRuns
  import opened ReassemblyLaws

  /** A non-buffered message with no frame for longer than its timeout is whole. */
  predicate IsWhole(cfg: Timeouts, b: Buffer, now: real) { !b.buffered && b.lastFrameAt + cfg.nonBuffered < now }

  /** A buffered one has failed. */
  predicate HasFailed(cfg: Timeouts, b: Buffer, now: real) { b.buffered && b.lastFrameAt + cfg.frame < now }

  predicate IsLive(cfg: Timeouts, b: Buffer, now: real) { !IsWhole(cfg, b, now) && !HasFailed(cfg, b, now) }

  /** The message that a buffer makes, with its text as it stands for a body or
      with a checked one. */
  function MessageOf(b: Buffer, body: Text, valid: bool, now: real): Message {
    Message(b.fromCall, b.toCall, b.verb, body, valid, b.body, b.bucket, b.startedAt, now, b.frameCount, b.buffered)
  }

  // ---- The newest in reach ----

  function Near(cfg: Timeouts, bucket: int, now: real): Entry -> bool {
    (e: Entry) => e.key.bucket == bucket && !Stale(cfg, e.buffer, now)
  }

  /** Of the live buffers in the bucket none started later, and none that started
      at the same time was inserted before. */
  ghost predicate Newest(cfg: Timeouts, es: seq<Entry>, bucket: int, now: real, i: nat) {
    && i < |es| && es[i].key.bucket == bucket && IsLive(cfg, es[i].buffer, now)
    && forall j :: 0 <= j < |es| && es[j].key.bucket == bucket && IsLive(cfg, es[j].buffer, now) ==>
         es[j].buffer.startedAt < es[i].buffer.startedAt
         || (es[j].buffer.startedAt == es[i].buffer.startedAt && i <= j)
  }

  lemma LiveIsLive(cfg: Timeouts, b: Buffer, now: real)
    ensures IsLive(cfg, b, now) <==> !Stale(cfg, b, now)
  {
  }

  lemma {:induction false} FilterBoth(es: seq<Entry>, p: Entry -> bool, q: Entry -> bool, r: Entry -> bool)
    requires forall e :: e in es ==> (r(e) <==> p(e) && q(e))
    ensures Filter(Filter(es, p), q) == Filter(es, r)
  {
    if es != [] {
      FilterBoth(es[1..], p, q, r);
      FilterHead(es, p, q);
    }
  }

  lemma ReachIsNear(cfg: Timeouts, es: seq<Entry>, freq: real, now: real)
    requires WellFormed(es)
    ensures Filter(Filter(es, Live(cfg, now)), InReach(BucketOffset(freq), freq))
         == Filter(es, Near(cfg, BucketOffset(freq), now))
  {
    var bucket := BucketOffset(freq);
    forall e | e in es ensures Near(cfg, bucket, now)(e) <==> Live(cfg, now)(e) && InReach(bucket, freq)(e) {
      assert Agrees(e);
      if e.key.bucket == bucket { SameBucketIsNear(e.buffer.rawOffset, freq); }
    }
    FilterBoth(es, Live(cfg, now), InReach(bucket, freq), Near(cfg, bucket, now));
  }

  ghost predicate FirstLatest(es: seq<Entry>, p: Entry -> bool, i: nat) {
    && i < |es| && p(es[i])
    && forall j :: 0 <= j < |es| && p(es[j]) ==>
         es[j].buffer.startedAt < es[i].buffer.startedAt
         || (es[j].buffer.startedAt == es[i].buffer.startedAt && i <= j)
  }

  lemma {:induction false} LatestIsFirstLatest(es: seq<Entry>, p: Entry -> bool, i: nat)
    requires FirstLatest(es, p, i)
    ensures Filter(es, p) != [] && Latest(Filter(es, p)) == es[i]
  {
    FilterCons(es, p);
    var tail := es[1..];
    if i > 0 {
      forall j | 0 <= j < |tail| && p(tail[j])
        ensures tail[j].buffer.startedAt < tail[i - 1].buffer.startedAt
             || (tail[j].buffer.startedAt == tail[i - 1].buffer.startedAt && i - 1 <= j)
      {
        assert tail[j] == es[j + 1];
      }
      LatestIsFirstLatest(tail, p, i - 1);
    } else if Filter(tail, p) != [] {
      var r := Latest(Filter(tail, p));
      var j :| 0 <= j < |tail| && tail[j] == r;
      assert es[j + 1] == r;
    }
  }

  lemma {:induction false} SomeFirstLatest(es: seq<Entry>, p: Entry -> bool) returns (i: nat)
    requires exists e :: e in es && p(e)
    ensures FirstLatest(es, p, i)
  {
    var tail := es[1..];
    if e :| e in tail && p(e) {
      var k := SomeFirstLatest(tail, p);
      if p(es[0]) && es[0].buffer.startedAt >= tail[k].buffer.startedAt {
        i := 0;
        forall j | 0 < j < |es| && p(es[j]) ensures es[j].buffer.startedAt <= es[0].buffer.startedAt {
          assert es[j] == tail[j - 1];
        }
      } else {
        i := k + 1;
        forall j | 0 < j < |es| && p(es[j])
          ensures es[j].buffer.startedAt < es[i].buffer.startedAt
               || (es[j].buffer.startedAt == es[i].buffer.startedAt && i <= j)
        {
          assert es[j] == tail[j - 1];
        }
      }
    } else {
      i := 0;
      forall j | 0 < j < |es| ensures !p(es[j]) { assert es[j] == tail[j - 1] && es[j] in tail; }
      assert p(es[0]);
    }
  }

  /** Where any live buffer is in reach, one is the newest. */
  lemma NewestExists(cfg: Timeouts, es: seq<Entry>, bucket: int, now: real) returns (i: nat)
    requires exists e :: e in es && e.key.bucket == bucket && IsLive(cfg, e.buffer, now)
    ensures Newest(cfg, es, bucket, now, i)
  {
    var p := Near(cfg, bucket, now);
    forall e | e in es ensures p(e) <==> e.key.bucket == bucket && IsLive(cfg, e.buffer, now) {
      LiveIsLive(cfg, e.buffer, now);
    }
    i := SomeFirstLatest(es, p);
  }

  lemma NewestIsLatest(cfg: Timeouts, es: seq<Entry>, bucket: int, now: real, i: nat)
    requires Newest(cfg, es, bucket, now, i)
    ensures Filter(es, Near(cfg, bucket, now)) != [] && Latest(Filter(es, Near(cfg, bucket, now))) == es[i]
  {
    forall j | 0 <= j < |es| ensures Near(cfg, bucket, now)(es[j])
                                <==> es[j].key.bucket == bucket && IsLive(cfg, es[j].buffer, now) {
      LiveIsLive(cfg, es[j].buffer, now);
    }
    LatestIsFirstLatest(es, Near(cfg, bucket, now), i);
  }

  // ---- A continuation ----

  /** The buffer with one more frame: its text joined on, with the space that
      goes missing between a number and a word of a non-buffered message. */
  function Longer(b: Buffer, f: ParsedFrame, now: real): Buffer {
    var more := Without(f.body, EOT);
    var seam: Text :=
      if !b.buffered && b.body != [] && more != [] && IsDigit(b.body[|b.body| - 1]) && IsUpperLetter(more[0])
      then " " else "";
    b.(body := b.body + seam + more, lastFrameAt := now, rawOffset := f.frequency, frameCount := b.frameCount + 1)
  }

  /** The live buffers but for one are as they were. */
  ghost predicate OthersStay(cfg: Timeouts, es: seq<Entry>, after: seq<Entry>, key: Key, now: real) {
    && (forall e :: e in es && e.key != key && IsLive(cfg, e.buffer, now) ==> e in after)
    && (forall e :: e in after && e.key != key ==> e in es && IsLive(cfg, e.buffer, now))
  }

  ghost predicate NoneAt(es: seq<Entry>, key: Key) { forall e :: e in es ==> e.key != key }

  /** At this key there is this buffer and nothing else. */
  ghost predicate OnlyAt(es: seq<Entry>, key: Key, b: Buffer) {
    Entry(key, b) in es && forall e :: e in es && e.key == key ==> e.buffer == b
  }

  lemma LongerIsExtended(b: Buffer, f: ParsedFrame, now: real)
    ensures Longer(b, f, now) == Extend(b, f, now)
  {
    assert b.body + [] == b.body;
  }

  /** A continuation goes to the newest live buffer in its bucket and to no other.
      That buffer is then handed over if it verifies, or as unchecked if the frame
      ends the transmission, and is kept otherwise. */
  lemma ContinuationFate(cfg: Timeouts, es: seq<Entry>, f: ParsedFrame, now: real, i: nat)
    requires WellFormed(es) && f.kind.Unknown? && f.body != []
    requires Newest(cfg, es, BucketOffset(f.frequency), now, i)
    ensures var o, key, b := AfterFeed(cfg, es, f, now), es[i].key, Longer(es[i].buffer, f, now);
      var checked := VerifyChecksum16(b.body);
      && OthersStay(cfg, es, o.entries, key, now)
      && if b.buffered && checked.Some? then
           NoneAt(o.entries, key) && MessageOf(b, checked.value, true, now) in o.out
         else if b.buffered && EOT in f.body then
           NoneAt(o.entries, key) && MessageOf(b, b.body, false, now) in o.out
         else OnlyAt(o.entries, key, b)
  {
    var live, b := Filter(es, Live(cfg, now)), Longer(es[i].buffer, f, now);
    var r := Conclude(live, es[i].key, b, VerifyChecksum16(b.body), EOT in f.body, now);
    FeedsNewest(cfg, es, f, now, i);
    LiveEntries(cfg, es, now);
    assert es[i] in es;
    ConcludeFate(live, es[i], b, VerifyChecksum16(b.body), EOT in f.body, now);
    FeedTells(cfg, es, f, now, r);
  }

  lemma FeedsNewest(cfg: Timeouts, es: seq<Entry>, f: ParsedFrame, now: real, i: nat)
    requires WellFormed(es) && f.kind.Unknown? && f.body != []
    requires Newest(cfg, es, BucketOffset(f.frequency), now, i)
    ensures var live, b := Filter(es, Live(cfg, now)), Longer(es[i].buffer, f, now);
      Process(live, f, now) == Conclude(live, es[i].key, b, VerifyChecksum16(b.body), EOT in f.body, now)
  {
    ReachIsNear(cfg, es, f.frequency, now);
    NewestIsLatest(cfg, es, BucketOffset(f.frequency), now, i);
    LongerIsExtended(es[i].buffer, f, now);
    assert RoleOf(f) == Continuation;
  }

  lemma FeedTells(cfg: Timeouts, es: seq<Entry>, f: ParsedFrame, now: real, r: Outcome)
    requires r == Process(Filter(es, Live(cfg, now)), f, now)
    ensures AfterFeed(cfg, es, f, now).entries == r.entries
    ensures forall m :: m in r.out ==> m in AfterFeed(cfg, es, f, now).out
  {
  }

  lemma LiveEntries(cfg: Timeouts, es: seq<Entry>, now: real)
    ensures forall e :: e in Filter(es, Live(cfg, now)) <==> e in es && IsLive(cfg, e.buffer, now)
  {
    forall e ensures e in Filter(es, Live(cfg, now)) <==> e in es && IsLive(cfg, e.buffer, now) {
      LiveIsLive(cfg, e.buffer, now);
    }
  }

  /** The buffers at other keys are the same. */
  ghost predicate SameElsewhere(es: seq<Entry>, after: seq<Entry>, key: Key) {
    forall e: Entry :: e.key != key ==> (e in es <==> e in after)
  }

  lemma PutElsewhere(es: seq<Entry>, chosen: Entry, b: Buffer)
    requires chosen in es
    ensures SameElsewhere(es, Put(es, chosen.key, b), chosen.key) && OnlyAt(Put(es, chosen.key, b), chosen.key, b)
  {
    var r := Put(es, chosen.key, b);
    forall e: Entry | e.key != chosen.key ensures e in es <==> e in r {
      if e in es {
        var i :| 0 <= i < |es| && es[i] == e;
        assert r[i] == e;
      }
      if e in r {
        var i :| 0 <= i < |r| && r[i] == e;
        assert es[i] == e;
      }
    }
    var k :| 0 <= k < |es| && es[k] == chosen;
    assert r[k] == Entry(chosen.key, b);
    forall e | e in r && e.key == chosen.key ensures e.buffer == b {
      var i :| 0 <= i < |r| && r[i] == e;
    }
  }

  lemma ConcludeFate(es: seq<Entry>, chosen: Entry, b: Buffer, checked: Option<Text>, eot: bool, now: real)
    requires chosen in es
    ensures var r := Conclude(es, chosen.key, b, checked, eot, now);
      && SameElsewhere(es, r.entries, chosen.key)
      && if b.buffered && checked.Some? then
           NoneAt(r.entries, chosen.key) && r.out == [MessageOf(b, checked.value, true, now)]
         else if b.buffered && eot then
           NoneAt(r.entries, chosen.key) && r.out == [MessageOf(b, b.body, false, now)]
         else OnlyAt(r.entries, chosen.key, b) && r.out == []
  {
    if !(b.buffered && (checked.Some? || eot)) { PutElsewhere(es, chosen, b); }
  }

  /** A continuation with no live buffer in its bucket changes nothing. */
  lemma StrayFate(cfg: Timeouts, es: seq<Entry>, f: ParsedFrame, now: real)
    requires WellFormed(es) && f.kind.Unknown?
    requires forall e :: e in es && e.key.bucket == BucketOffset(f.frequency) ==> !IsLive(cfg, e.buffer, now)
    ensures var o := AfterFeed(cfg, es, f, now);
      forall e :: e in o.entries <==> e in es && IsLive(cfg, e.buffer, now)
  {
    NobodyNear(cfg, es, f.frequency, now);
    StrayProcess(Filter(es, Live(cfg, now)), f, now);
    LiveEntries(cfg, es, now);
  }

  lemma NobodyNear(cfg: Timeouts, es: seq<Entry>, freq: real, now: real)
    requires WellFormed(es)
    requires forall e :: e in es && e.key.bucket == BucketOffset(freq) ==> !IsLive(cfg, e.buffer, now)
    ensures Filter(Filter(es, Live(cfg, now)), InReach(BucketOffset(freq), freq)) == []
  {
    ReachIsNear(cfg, es, freq, now);
    forall e | e in es ensures !Near(cfg, BucketOffset(freq), now)(e) { LiveIsLive(cfg, e.buffer, now); }
    FilterNone(es, Near(cfg, BucketOffset(freq), now));
  }

  lemma StrayProcess(es: seq<Entry>, f: ParsedFrame, now: real)
    requires f.kind.Unknown? && Filter(es, InReach(BucketOffset(f.frequency), f.frequency)) == []
    ensures Process(es, f, now) == Outcome(es, [], [])
  {
    assert RoleOf(f).Continuation? || RoleOf(f).Unrelated?;
  }

  // ---- Starters ----

  /** The verb and what follows it, if the frame begins a buffered message. */
  ghost predicate BeginsBuffered(f: ParsedFrame, verb: Verb, rest: Text) {
    f.kind in {DirectedMessage, DirectedCommand, DirectedQuery} && OrEmpty(f.fromCall) != []
    && ClassifyFirstFrame(f) == Some((verb, rest))
  }

  function FirstBuffer(f: ParsedFrame, verb: Verb, body: Text, now: real, buffered: bool): Buffer {
    Buffer(OrEmpty(f.fromCall), UpperText(OrEmpty(f.toCall)), verb, BucketOffset(f.frequency), f.frequency, body,
           now, now, 1, buffered)
  }

  function OneFrameMessage(f: ParsedFrame, verb: Verb, body: Text, raw: Text, now: real): Message {
    Message(OrEmpty(f.fromCall), UpperText(OrEmpty(f.toCall)), verb, body, true, raw, BucketOffset(f.frequency),
            now, now, 1, true)
  }

  lemma PopAndStart(es: seq<Entry>, key: Key, b: Buffer)
    ensures SameElsewhere(es, Pop(es, key), key) && NoneAt(Pop(es, key), key)
    ensures SameElsewhere(es, Pop(es, key) + [Entry(key, b)], key) && OnlyAt(Pop(es, key) + [Entry(key, b)], key, b)
  {
  }

  /** A buffered starter discards what its key held. It is complete by itself if
      its text verifies, end marks apart, or if it is QUERY MSGS with nothing
      after it or the query for one letter; otherwise it begins a buffer. */
  lemma StarterFate(cfg: Timeouts, es: seq<Entry>, f: ParsedFrame, verb: Verb, rest: Text, now: real)
    requires BeginsBuffered(f, verb, rest)
    ensures var o, key, bare := AfterFeed(cfg, es, f, now), KeyOf(f), Without(rest, EOT);
      && OthersStay(cfg, es, o.entries, key, now)
      && if rest != [] && VerifyChecksum16(bare).Some? then
           NoneAt(o.entries, key) && OneFrameMessage(f, verb, VerifyChecksum16(bare).value, bare, now) in o.out
         else if rest == [] && verb.QueryMsgs? then
           NoneAt(o.entries, key) && OneFrameMessage(f, verb, [], [], now) in o.out
         else if verb.Query? && rest != [] && QueryMsgId(rest).Some? then
           NoneAt(o.entries, key)
           && OneFrameMessage(f, verb, "MSG " + QueryMsgId(rest).value, rest, now) in o.out
         else OnlyAt(o.entries, key, FirstBuffer(f, verb, rest, now, true))
  {
    var live := Filter(es, Live(cfg, now));
    LiveEntries(cfg, es, now);
    PopAndStart(live, KeyOf(f), NewBuffer(f, verb, rest, now, true));
    assert RoleOf(f) == BufferedStarter(verb, rest);
    StarterOutcome(live, f, verb, rest, now);
  }

  lemma StarterOutcome(es: seq<Entry>, f: ParsedFrame, verb: Verb, rest: Text, now: real)
    ensures var r, bare := OnBufferedStarter(es, f, verb, rest, now), Without(rest, EOT);
      if rest != [] && VerifyChecksum16(bare).Some? then
        r.entries == Pop(es, KeyOf(f)) && r.out == [OneFrameMessage(f, verb, VerifyChecksum16(bare).value, bare, now)]
      else if rest == [] && verb.QueryMsgs? then
        r.entries == Pop(es, KeyOf(f)) && r.out == [OneFrameMessage(f, verb, [], [], now)]
      else if verb.Query? && rest != [] && QueryMsgId(rest).Some? then
        r.entries == Pop(es, KeyOf(f))
        && r.out == [OneFrameMessage(f, verb, "MSG " + QueryMsgId(rest).value, rest, now)]
      else
        r.entries == Pop(es, KeyOf(f)) + [Entry(KeyOf(f), FirstBuffer(f, verb, rest, now, true))] && r.out == []
  {
  }

  /** A directed frame with other words, or a directed heartbeat: what its key
      held is handed over as it stands, buffered or not, and a new buffer begins. */
  lemma WordsFate(cfg: Timeouts, es: seq<Entry>, f: ParsedFrame, now: real)
    requires WellFormed(es) && OrEmpty(f.fromCall) != [] && f.body != [] && ClassifyFirstFrame(f).None?
    requires f.kind in {DirectedMessage, DirectedCommand, DirectedQuery}
          || (f.kind.Heartbeat? && OrEmpty(f.toCall) != [] && OrEmpty(f.toCall)[0] != '@')
    ensures var o, key, body := AfterFeed(cfg, es, f, now), KeyOf(f), Without(f.body, EOT);
      && OthersStay(cfg, es, o.entries, key, now)
      && OnlyAt(o.entries, key, FirstBuffer(f, Other(FirstWord(body)), body, now, false))
      && forall e :: e in es && e.key == key && IsLive(cfg, e.buffer, now) ==>
           MessageOf(e.buffer, e.buffer.body, true, now) in o.out
  {
    var live, key, body := Filter(es, Live(cfg, now)), KeyOf(f), Without(f.body, EOT);
    LiveEntries(cfg, es, now);
    FilterWellFormed(es, Live(cfg, now));
    PopAndStart(live, key, NewBuffer(f, Other(FirstWord(body)), body, now, false));
    assert RoleOf(f) == NonBufferedStarter;
    forall e | e in es && e.key == key && IsLive(cfg, e.buffer, now)
      ensures MessageOf(e.buffer, e.buffer.body, true, now) in AfterFeed(cfg, es, f, now).out
    {
      assert e in live;
      PriorComesOut(live, f, now, e);
    }
  }

  lemma PriorComesOut(es: seq<Entry>, f: ParsedFrame, now: real, e: Entry)
    requires WellFormed(es) && e in es && e.key == KeyOf(f)
    ensures OnNonBufferedStarter(es, f, now).out == [MessageOf(e.buffer, e.buffer.body, true, now)]
  {
    var prior := Lookup(es, KeyOf(f));
    assert Entry(KeyOf(f), prior.value) in es;
    OneAtKey(es, Entry(KeyOf(f), prior.value), e);
  }

  // ---- Time alone ----

  lemma MapHas(es: seq<Entry>, p: Entry -> bool, valid: bool, now: real, e: Entry)
    requires e in es && p(e)
    ensures MessageOf(e.buffer, e.buffer.body, valid, now) in Map(Filter(es, p), Emitter(valid, now))
  {
    var picked := Filter(es, p);
    var i :| 0 <= i < |picked| && picked[i] == e;
    assert Map(picked, Emitter(valid, now))[i] == MessageOf(e.buffer, e.buffer.body, valid, now);
  }

  /** With any frame, whatever it is, the messages that are whole come out. */
  lemma WholeComesOut(cfg: Timeouts, es: seq<Entry>, f: ParsedFrame, now: real, e: Entry)
    requires e in es && IsWhole(cfg, e.buffer, now)
    ensures MessageOf(e.buffer, e.buffer.body, true, now) in AfterFeed(cfg, es, f, now).out
  {
    MapHas(es, Expired(cfg, now), true, now, e);
  }

  /** A sweep for completed messages hands over those that are whole, and those
      only; a sweep for timeouts reports those that have failed, and those only. */
  lemma SweepFate(cfg: Timeouts, es: seq<Entry>, now: real, e: Entry)
    requires e in es
    ensures IsWhole(cfg, e.buffer, now) ==>
      MessageOf(e.buffer, e.buffer.body, true, now) in AfterSweepCompleted(cfg, es, now).out
    ensures e in AfterSweepCompleted(cfg, es, now).entries <==> !IsWhole(cfg, e.buffer, now)
    ensures HasFailed(cfg, e.buffer, now) ==>
      MessageOf(e.buffer, e.buffer.body, false, now) in AfterSweepTimeouts(cfg, es, now).out
    ensures e in AfterSweepTimeouts(cfg, es, now).entries <==> !HasFailed(cfg, e.buffer, now)
  {
    if IsWhole(cfg, e.buffer, now) { MapHas(es, Expired(cfg, now), true, now, e); }
    if HasFailed(cfg, e.buffer, now) { MapHas(es, Lapsed(cfg, now), false, now, e); }
  }

  /** The buffers that go without a message are the failed ones that a frame
      finds, and what a buffered starter finds at its key. */
  lemma LostIff(cfg: Timeouts, es: seq<Entry>, ev: Event, e: Entry)
    ensures e in Step(cfg, es, ev).lost <==>
      && ev.Heard? && e in es
      && (HasFailed(cfg, e.buffer, ev.at)
          || (IsLive(cfg, e.buffer, ev.at) && e.key == KeyOf(ev.frame)
              && exists verb: Verb, rest: Text :: BeginsBuffered(ev.frame, verb, rest)))
  {
    if ev.Heard? {
      LiveIsLive(cfg, e.buffer, ev.at);
      if RoleOf(ev.frame).BufferedStarter? {
        assert BeginsBuffered(ev.frame, RoleOf(ev.frame).verb, RoleOf(ev.frame).rest);
      }
      if verb: Verb, rest: Text :| BeginsBuffered(ev.frame, verb, rest) {
        assert RoleOf(ev.frame) == BufferedStarter(verb, rest);
      }
    }
  }
}
