/** What the assembler promises about the messages it emits: a checksum behind
    every acknowledgement, but for one way round it, and no frame lost uncounted. */
module ReassemblyLaws {
  import opened Text
  import opened Sequences
  import opened Checksum
  import opened Reassembly
  import opened ReassemblyRuns

  // ---- The raw-frequency filter and the order of buffers ----

  /** Within one bucket the 15 Hz check never rejects. */
  lemma SameBucketIsNear(x: real, y: real)
    requires BucketOffset(x) == BucketOffset(y)
    ensures Abs(x - y) <= 10.0 < RAW_TOLERANCE_HZ
  {
    RoundIsNear(x / 10.0);
    RoundIsNear(y / 10.0);
    assert RoundHalfEven(x / 10.0) == RoundHalfEven(y / 10.0);
  }

  lemma RoundIsNear(x: real)
    ensures -0.5 <= x - RoundHalfEven(x) as real <= 0.5
  {
  }

  /** The bucket is the nearest multiple of 10 Hz; halfway between two it is the
      multiple of 20 Hz. */
  lemma BucketIsNearest(freq: real, k: int)
    ensures BucketOffset(freq) == 10 * k <==>
      (10 * k) as real - 5.0 < freq < (10 * k) as real + 5.0
      || (k % 2 == 0 && (freq == (10 * k) as real - 5.0 || freq == (10 * k) as real + 5.0))
    ensures BucketOffset(freq) % 10 == 0
  {
    var x := freq / 10.0;
    RoundIs(x, k);
  }

  lemma RoundIs(x: real, k: int)
    ensures RoundHalfEven(x) == k <==>
      k as real - 0.5 < x < k as real + 0.5 || (k % 2 == 0 && (x == k as real - 0.5 || x == k as real + 0.5))
  {
    var low := x.Floor;
    assert low as real <= x < low as real + 1.0;
  }

  lemma RawCheckIsRedundant(es: seq<Entry>, raw: real)
    requires WellFormed(es)
    ensures Filter(es, InReach(BucketOffset(raw), raw)) == Filter(es, (e: Entry) => e.key.bucket == BucketOffset(raw))
  {
    forall e | e in es && e.key.bucket == BucketOffset(raw) ensures InReach(BucketOffset(raw), raw)(e) {
      assert Agrees(e);
      SameBucketIsNear(e.buffer.rawOffset, raw);
    }
    FilterCongruent(es, InReach(BucketOffset(raw), raw), (e: Entry) => e.key.bucket == BucketOffset(raw));
  }

  ghost predicate StartSorted(es: seq<Entry>) {
    es == []
    || ((forall e :: e in es[1..] ==> es[0].buffer.startedAt <= e.buffer.startedAt) && StartSorted(es[1..]))
  }

  /** Insertion order is start order, and nothing starts in the future. */
  ghost predicate InStartOrder(es: seq<Entry>, now: real) {
    StartSorted(es) && forall e :: e in es ==> e.buffer.startedAt <= now
  }

  lemma {:induction false} SortedAt(es: seq<Entry>, i: nat, j: nat)
    requires StartSorted(es) && i < j < |es|
    ensures es[i].buffer.startedAt <= es[j].buffer.startedAt
  {
    if i == 0 {
      assert es[1..][j - 1] == es[j];
    } else {
      SortedAt(es[1..], i - 1, j - 1);
    }
  }

  lemma {:induction false} FilterInStartOrder(es: seq<Entry>, p: Entry -> bool, now: real)
    requires InStartOrder(es, now)
    ensures InStartOrder(Filter(es, p), now)
  {
    if es != [] {
      FilterInStartOrder(es[1..], p, now);
      FilterCons(es, p);
    }
  }

  lemma {:induction false} AppendSorted(es: seq<Entry>, last: Entry)
    requires StartSorted(es) && forall e :: e in es ==> e.buffer.startedAt <= last.buffer.startedAt
    ensures StartSorted(es + [last])
  {
    if es != [] {
      AppendSorted(es[1..], last);
      assert (es + [last])[1..] == es[1..] + [last];
    }
  }

  lemma {:induction false} PutSorted(es: seq<Entry>, key: Key, b: Buffer)
    requires StartSorted(es) && forall e :: e in es && e.key == key ==> e.buffer.startedAt == b.startedAt
    ensures StartSorted(Put(es, key, b))
    ensures forall e :: e in Put(es, key, b) ==> exists d :: d in es && d.buffer.startedAt == e.buffer.startedAt
  {
    if es != [] {
      PutSorted(es[1..], key, b);
      assert Put(es, key, b)[1..] == Put(es[1..], key, b);
    }
  }

  lemma StepInStartOrder(cfg: Timeouts, es: seq<Entry>, ev: Event, before: real)
    requires WellFormed(es) && InStartOrder(es, before) && before <= ev.at
    ensures InStartOrder(Step(cfg, es, ev).entries, ev.at)
  {
    match ev
    case Heard(f, now) =>
      FilterWellFormed(es, Live(cfg, now));
      FilterInStartOrder(es, Live(cfg, now), now);
      ProcessInStartOrder(Filter(es, Live(cfg, now)), f, now);
    case CompletedSweep(now) => FilterInStartOrder(es, Not(Expired(cfg, now)), now);
    case TimeoutSweep(now) => FilterInStartOrder(es, Not(Lapsed(cfg, now)), now);
  }

  lemma ProcessInStartOrder(es: seq<Entry>, f: ParsedFrame, now: real)
    requires WellFormed(es) && InStartOrder(es, now)
    ensures InStartOrder(Process(es, f, now).entries, now)
  {
    var key := KeyOf(f);
    match RoleOf(f)
    case BufferedStarter(verb, rest) =>
      StartInStartOrder(es, key, NewBuffer(f, verb, rest, now, true), now);
      FilterInStartOrder(es, NotKey(key), now);
    case NonBufferedStarter =>
      var body := Without(f.body, EOT);
      StartInStartOrder(es, key, NewBuffer(f, Other(FirstWord(body)), body, now, false), now);
    case Continuation => ContinueInStartOrder(es, f, now);
    case Unrelated =>
  }

  lemma StartInStartOrder(es: seq<Entry>, key: Key, b: Buffer, now: real)
    requires InStartOrder(es, now) && b.startedAt == now
    ensures InStartOrder(Pop(es, key) + [Entry(key, b)], now)
  {
    FilterInStartOrder(es, NotKey(key), now);
    AppendSorted(Pop(es, key), Entry(key, b));
  }

  lemma ContinueInStartOrder(es: seq<Entry>, f: ParsedFrame, now: real)
    requires WellFormed(es) && InStartOrder(es, now)
    ensures InStartOrder(OnContinuation(es, f, now).entries, now)
  {
    var candidates := Filter(es, InReach(BucketOffset(f.frequency), f.frequency));
    if candidates != [] {
      var chosen := Latest(candidates);
      var b := Extend(chosen.buffer, f, now);
      FilterInStartOrder(es, NotKey(chosen.key), now);
      PutInStartOrder(es, chosen, b, now);
    }
  }

  lemma PutInStartOrder(es: seq<Entry>, chosen: Entry, b: Buffer, now: real)
    requires WellFormed(es) && InStartOrder(es, now)
    requires chosen in es && b.startedAt == chosen.buffer.startedAt
    ensures InStartOrder(Put(es, chosen.key, b), now)
  {
    forall e | e in es && e.key == chosen.key ensures e == chosen { OneAtKey(es, e, chosen); }
    PutSorted(es, chosen.key, b);
  }

  /** `sweep_timeouts` reports oldest first. */
  lemma SweepOldestFirst(cfg: Timeouts, es: seq<Entry>, now: real)
    requires InStartOrder(es, now)
    ensures var out := AfterSweepTimeouts(cfg, es, now).out;
      forall i, j :: 0 <= i < j < |out| ==> out[i].startedAt <= out[j].startedAt
  {
    FilterInStartOrder(es, Lapsed(cfg, now), now);
    var lapsed := Filter(es, Lapsed(cfg, now));
    forall i, j | 0 <= i < j < |lapsed| ensures lapsed[i].buffer.startedAt <= lapsed[j].buffer.startedAt {
      SortedAt(lapsed, i, j);
    }
  }

  // ---- Acknowledged only on proof ----

  /** The messages that are acknowledged automatically when addressed to us. */
  predicate AckEligible(m: Message) {
    m.buffered && m.checksumValid && (m.verb.Msg? || m.verb.MsgTo?)
  }

  ghost predicate CrcProven(m: Message) {
    m.body != [] && RStrip(m.rawText) == WithChecksum(m.body)
  }

  /** The two queries that are complete without a checksum. */
  predicate BareQuery(m: Message) {
    || (m.verb.QueryMsgs? && m.rawText == [])
    || (m.verb.Query? && QueryMsgId(m.rawText).Some? && m.body == "MSG " + QueryMsgId(m.rawText).value)
  }

  /** Handed over as checked, but without a checksum behind it. */
  ghost predicate Unproven(m: Message) {
    m.buffered && m.checksumValid && !CrcProven(m) && !BareQuery(m)
  }

  /** The buffered message that a non-buffered starter finds unfinished under
      its key, as it will be handed over. */
  function Preempted(cfg: Timeouts, es: seq<Entry>, ev: Event): Option<Message> {
    if !ev.Heard? || !RoleOf(ev.frame).NonBufferedStarter? then None
    else
      match Lookup(Filter(es, Live(cfg, ev.at)), KeyOf(ev.frame))
      case Some(b) => if b.buffered then Some(Emit(b, true, ev.at)) else None
      case None => None
  }

  lemma PreemptedIsNotProven(m: Message)
    requires m.body == m.rawText
    ensures !CrcProven(m)
  {
    RStripShape(m.rawText);
  }

  lemma PreemptedComesOut(cfg: Timeouts, es: seq<Entry>, ev: Event)
    ensures var p := Preempted(cfg, es, ev);
      p.Some? ==> p.value in Step(cfg, es, ev).out && !CrcProven(p.value)
  {
    var p := Preempted(cfg, es, ev);
    if p.Some? {
      var r := Process(Filter(es, Live(cfg, ev.at)), ev.frame, ev.at);
      assert r.out == [p.value];
      PreemptedIsNotProven(p.value);
    }
  }

  /** A message comes out unproven in exactly one way: preempted, and not by
      chance a bare query. */
  lemma UnprovenIff(cfg: Timeouts, es: seq<Entry>, ev: Event, m: Message)
    ensures m in Step(cfg, es, ev).out && Unproven(m)
       <==> Preempted(cfg, es, ev) == Some(m) && !BareQuery(m)
  {
    PreemptedComesOut(cfg, es, ev);
    match ev
    case CompletedSweep(now) => DoneIsNotBuffered(cfg, es, now);
    case TimeoutSweep(now) => LapsedIsUnchecked(cfg, es, now);
    case Heard(f, now) =>
      DoneIsNotBuffered(cfg, es, now);
      match RoleOf(f)
      case BufferedStarter(verb, rest) => SingleFrameProven(f, verb, rest, now);
      case NonBufferedStarter =>
      case Continuation => ContinuationProven(Filter(es, Live(cfg, now)), f, now);
      case Unrelated =>
  }

  lemma SingleFrameProven(f: ParsedFrame, verb: Verb, rest: Text, now: real)
    ensures var single := SingleFrame(f, verb, rest, now);
      single.Some? ==> CrcProven(single.value) || BareQuery(single.value)
  {
    var stripped := Without(rest, EOT);
    var v := VerifyChecksum16(stripped);
    if v.Some? { VerifyExactly(stripped, v.value); }
  }

  lemma ContinuationProven(es: seq<Entry>, f: ParsedFrame, now: real)
    ensures forall m :: m in OnContinuation(es, f, now).out && m.checksumValid ==> CrcProven(m)
  {
    var candidates := Filter(es, InReach(BucketOffset(f.frequency), f.frequency));
    if candidates != [] {
      var b := Extend(Latest(candidates).buffer, f, now);
      var v := VerifyChecksum16(b.body);
      if v.Some? { VerifyExactly(b.body, v.value); }
    }
  }

  lemma DoneIsNotBuffered(cfg: Timeouts, es: seq<Entry>, now: real)
    ensures forall m :: m in Map(Filter(es, Expired(cfg, now)), Emitter(true, now)) ==> !m.buffered
  {
    var expired := Filter(es, Expired(cfg, now));
    var done := Map(expired, Emitter(true, now));
    forall m | m in done ensures !m.buffered {
      var i :| 0 <= i < |done| && done[i] == m;
      assert expired[i] in expired;
    }
  }

  lemma LapsedIsUnchecked(cfg: Timeouts, es: seq<Entry>, now: real)
    ensures forall m :: m in AfterSweepTimeouts(cfg, es, now).out ==> !m.checksumValid
  {
    var out := AfterSweepTimeouts(cfg, es, now).out;
    forall m | m in out ensures !m.checksumValid {
      var i :| 0 <= i < |out| && out[i] == m;
    }
  }

  /** No message that is of interest is preempted in the run, bare queries apart. */
  ghost predicate NeverPreempts(cfg: Timeouts, es: seq<Entry>, evs: seq<Event>, interest: Message -> bool)
    decreases |evs|
  {
    evs == []
    || ((match Preempted(cfg, es, evs[0]) case Some(m) => BareQuery(m) || !interest(m) case None => true)
        && NeverPreempts(cfg, Step(cfg, es, evs[0]).entries, evs[1..], interest))
  }

  /** In a run, a message of interest is handed over unproven if and only if one
      is preempted. */
  lemma {:induction false} UnprovenRunIff(cfg: Timeouts, es: seq<Entry>, evs: seq<Event>, interest: Message -> bool)
    ensures (exists m :: m in Output(Assembling(cfg), es, evs) && interest(m) && Unproven(m))
       <==> !NeverPreempts(cfg, es, evs, interest)
    decreases |evs|
  {
    if evs != [] {
      var o := Step(cfg, es, evs[0]);
      var rest := Output(Assembling(cfg), o.entries, evs[1..]);
      UnprovenRunIff(cfg, o.entries, evs[1..], interest);
      assert Output(Assembling(cfg), es, evs) == (if evs[0].TimeoutSweep? then [] else o.out) + rest;
      forall m ensures m in o.out && Unproven(m) <==> Preempted(cfg, es, evs[0]) == Some(m) && !BareQuery(m) {
        UnprovenIff(cfg, es, evs[0], m);
      }
    }
  }

  function OfMail(): Message -> bool { (m: Message) => m.verb.Msg? || m.verb.MsgTo? }

  /** Mail is acknowledged without its checksum in exactly the runs in which a
      non-buffered starter preempts unfinished mail. */
  lemma AckOnlyOnProof(cfg: Timeouts, es: seq<Entry>, evs: seq<Event>)
    ensures (exists m :: m in Output(Assembling(cfg), es, evs) && AckEligible(m) && !CrcProven(m))
       <==> !NeverPreempts(cfg, es, evs, OfMail())
  {
    UnprovenRunIff(cfg, es, evs, OfMail());
    forall m ensures AckEligible(m) && !CrcProven(m) <==> OfMail()(m) && Unproven(m) {}
  }

  /** An ACK frame starts and extends nothing: what comes out with it had only
      timed out, and is never acknowledged. */
  lemma AckFramesAreInert(cfg: Timeouts, es: seq<Entry>, f: ParsedFrame, now: real)
    requires f.kind.Ack?
    ensures AfterFeed(cfg, es, f, now).entries == Filter(es, Live(cfg, now))
    ensures forall m :: m in AfterFeed(cfg, es, f, now).out ==> !m.buffered && !AckEligible(m)
  {
    assert RoleOf(f) == Unrelated;
    var done := Map(Filter(es, Expired(cfg, now)), Emitter(true, now));
    assert done + [] == done;
    DoneIsNotBuffered(cfg, es, now);
  }

  // ---- Frames are conserved ----

  function Weight(): Entry -> nat { (e: Entry) => e.buffer.frameCount }

  function MessageWeight(): Message -> nat { (m: Message) => m.frameCount }

  /** A frame enters a buffer, or completes a message by itself. */
  predicate Absorbed(cfg: Timeouts, es: seq<Entry>, ev: Event) {
    ev.Heard?
    && match RoleOf(ev.frame)
       case BufferedStarter(_, _) => true
       case NonBufferedStarter => true
       case Continuation =>
         Filter(Filter(es, Live(cfg, ev.at)),
                InReach(BucketOffset(ev.frame.frequency), ev.frame.frequency)) != []
       case Unrelated => false
  }

  /** Frames absorbed, emitted, and lost over a run. */
  datatype Tally = Tally(absorbed: nat, emitted: nat, lost: nat)

  function Count(cfg: Timeouts, es: seq<Entry>, evs: seq<Event>): Tally
    decreases |evs|
  {
    if evs == [] then Tally(0, 0, 0)
    else
      var o := Step(cfg, es, evs[0]);
      var t := Count(cfg, o.entries, evs[1..]);
      Tally((if Absorbed(cfg, es, evs[0]) then 1 else 0) + t.absorbed,
            Sum(o.out, MessageWeight()) + t.emitted,
            Sum(o.lost, Weight()) + t.lost)
  }

  lemma {:induction false} SumSplits(es: seq<Entry>, p: Entry -> bool, q: Entry -> bool)
    requires forall e :: e in es ==> p(e) != q(e)
    ensures Sum(es, Weight()) == Sum(Filter(es, p), Weight()) + Sum(Filter(es, q), Weight())
  {
    if es != [] {
      SumSplits(es[1..], p, q);
      FilterCons(es, p);
      FilterCons(es, q);
    }
  }

  lemma {:induction false} SumEmitted(es: seq<Entry>, valid: bool, now: real)
    ensures Sum(Map(es, Emitter(valid, now)), MessageWeight()) == Sum(es, Weight())
  {
    if es != [] {
      SumEmitted(es[1..], valid, now);
      MapCons(es, Emitter(valid, now));
    }
  }

  lemma {:induction false} SumPut(es: seq<Entry>, e: Entry, b: Buffer)
    requires WellFormed(es) && e in es
    ensures Sum(Put(es, e.key, b), Weight()) + e.buffer.frameCount == Sum(es, Weight()) + b.frameCount
  {
    if es[0] == e {
      PutAbsent(es[1..], e.key, b);
    } else {
      assert e in es[1..];
      SumPut(es[1..], e, b);
    }
  }

  lemma {:induction false} PutAbsent(es: seq<Entry>, key: Key, b: Buffer)
    requires forall e :: e in es ==> e.key != key
    ensures Put(es, key, b) == es
  {
    if es != [] { PutAbsent(es[1..], key, b); }
  }

  lemma SumPop(es: seq<Entry>, e: Entry)
    requires WellFormed(es) && e in es
    ensures Sum(es, Weight()) == Sum(Pop(es, e.key), Weight()) + e.buffer.frameCount
  {
    SumSplits(es, NotKey(e.key), At(e.key));
    LookupIsFilter(es, e.key);
    var l := Lookup(es, e.key);
    assert l.Some? && Entry(e.key, l.value) in es;
    assert l.value == e.buffer by {
      var i :| 0 <= i < |es| && es[i] == e;
      var j :| 0 <= j < |es| && es[j] == Entry(e.key, l.value);
    }
    assert Filter(es, At(e.key)) == [e];
    assert Sum([e], Weight()) == e.buffer.frameCount;
  }

  lemma SumStart(es: seq<Entry>, e: Entry)
    ensures Sum(es + [e], Weight()) == Sum(es, Weight()) + e.buffer.frameCount
  {
    SumAppend(es, [e], Weight());
    assert Sum([e], Weight()) == e.buffer.frameCount;
  }

  lemma ProcessConserves(es: seq<Entry>, f: ParsedFrame, now: real)
    requires WellFormed(es)
    ensures var r := Process(es, f, now);
      (match RoleOf(f)
       case Continuation => if Filter(es, InReach(BucketOffset(f.frequency), f.frequency)) != [] then 1 else 0
       case Unrelated => 0
       case _ => 1)
      + Sum(es, Weight()) == Sum(r.entries, Weight()) + Sum(r.out, MessageWeight()) + Sum(r.lost, Weight())
  {
    var key := KeyOf(f);
    match RoleOf(f)
    case BufferedStarter(verb, rest) => StartConserves(es, f, verb, rest, now);
    case NonBufferedStarter => PreemptConserves(es, f, now);
    case Continuation => ContinueConserves(es, f, now);
    case Unrelated =>
  }

  lemma StartConserves(es: seq<Entry>, f: ParsedFrame, verb: Verb, rest: Text, now: real)
    ensures var r := OnBufferedStarter(es, f, verb, rest, now);
      1 + Sum(es, Weight()) == Sum(r.entries, Weight()) + Sum(r.out, MessageWeight()) + Sum(r.lost, Weight())
  {
    var key, single := KeyOf(f), SingleFrame(f, verb, rest, now);
    SumSplits(es, NotKey(key), At(key));
    if single.Some? {
      SumOne(single.value);
    } else {
      SumStart(Pop(es, key), Entry(key, NewBuffer(f, verb, rest, now, true)));
    }
  }

  lemma SumOne(m: Message)
    ensures Sum([m], MessageWeight()) == m.frameCount
  {
    assert [m][1..] == [];
  }

  lemma PreemptConserves(es: seq<Entry>, f: ParsedFrame, now: real)
    requires WellFormed(es)
    ensures var r := OnNonBufferedStarter(es, f, now);
      1 + Sum(es, Weight()) == Sum(r.entries, Weight()) + Sum(r.out, MessageWeight()) + Sum(r.lost, Weight())
  {
    var key, body := KeyOf(f), Without(f.body, EOT);
    SumStart(Pop(es, key), Entry(key, NewBuffer(f, Other(FirstWord(body)), body, now, false)));
    var prior := Lookup(es, key);
    if prior.Some? {
      SumPop(es, Entry(key, prior.value));
      SumOne(Emit(prior.value, true, now));
    } else {
      FilterAll(es, NotKey(key));
    }
  }

  lemma ContinueConserves(es: seq<Entry>, f: ParsedFrame, now: real)
    requires WellFormed(es)
    ensures var r := OnContinuation(es, f, now);
      (if Filter(es, InReach(BucketOffset(f.frequency), f.frequency)) != [] then 1 else 0)
      + Sum(es, Weight()) == Sum(r.entries, Weight()) + Sum(r.out, MessageWeight()) + Sum(r.lost, Weight())
  {
    var candidates := Filter(es, InReach(BucketOffset(f.frequency), f.frequency));
    if candidates != [] {
      var chosen := Latest(candidates);
      var b := Extend(chosen.buffer, f, now);
      assert b.frameCount == chosen.buffer.frameCount + 1;
      SumPop(es, chosen);
      SumPut(es, chosen, b);
      ConcludeConserves(es, chosen, b, VerifyChecksum16(b.body), EOT in f.body, now);
    }
  }

  lemma ConcludeConserves(es: seq<Entry>, chosen: Entry, b: Buffer, validated: Option<Text>, eot: bool, now: real)
    requires Sum(es, Weight()) == Sum(Pop(es, chosen.key), Weight()) + chosen.buffer.frameCount
    requires Sum(Put(es, chosen.key, b), Weight()) + chosen.buffer.frameCount == Sum(es, Weight()) + b.frameCount
    ensures var r := Conclude(es, chosen.key, b, validated, eot, now);
      b.frameCount + Sum(es, Weight())
      == chosen.buffer.frameCount + Sum(r.entries, Weight()) + Sum(r.out, MessageWeight()) + Sum(r.lost, Weight())
  {
    var r := Conclude(es, chosen.key, b, validated, eot, now);
    if r.out != [] { SumOne(r.out[0]); }
  }

  lemma StepConserves(cfg: Timeouts, es: seq<Entry>, ev: Event)
    requires WellFormed(es)
    ensures var o := Step(cfg, es, ev);
      (if Absorbed(cfg, es, ev) then 1 else 0) + Sum(es, Weight())
      == Sum(o.entries, Weight()) + Sum(o.out, MessageWeight()) + Sum(o.lost, Weight())
  {
    match ev
    case Heard(f, now) =>
      var expired, lapsed := Filter(es, Expired(cfg, now)), Filter(es, Lapsed(cfg, now));
      var live := Filter(es, Live(cfg, now));
      FilterWellFormed(es, Live(cfg, now));
      SumSplits(es, Live(cfg, now), Not(Live(cfg, now)));
      var stale := Filter(es, Not(Live(cfg, now)));
      SumSplits(stale, Expired(cfg, now), Lapsed(cfg, now));
      FilterWeaker(es, Not(Live(cfg, now)), Expired(cfg, now));
      FilterWeaker(es, Not(Live(cfg, now)), Lapsed(cfg, now));
      SumEmitted(expired, true, now);
      ProcessConserves(live, f, now);
      var r := Process(live, f, now);
      SumAppend(Map(expired, Emitter(true, now)), r.out, MessageWeight());
      SumAppend(lapsed, r.lost, Weight());
    case CompletedSweep(now) =>
      SumSplits(es, Expired(cfg, now), Not(Expired(cfg, now)));
      SumEmitted(Filter(es, Expired(cfg, now)), true, now);
    case TimeoutSweep(now) =>
      SumSplits(es, Lapsed(cfg, now), Not(Lapsed(cfg, now)));
      SumEmitted(Filter(es, Lapsed(cfg, now)), false, now);
  }

  /** Every frame taken in is in a message, in a buffer, or in a lost buffer. */
  lemma {:induction false} RunConserves(cfg: Timeouts, es: seq<Entry>, evs: seq<Event>)
    requires WellFormed(es)
    ensures var t := Count(cfg, es, evs);
      t.absorbed + Sum(es, Weight()) == t.emitted + t.lost + Sum(Final(Assembling(cfg), es, evs), Weight())
    decreases |evs|
  {
    if evs != [] {
      StepConserves(cfg, es, evs[0]);
      StepWellFormed(cfg, es, evs[0]);
      RunConserves(cfg, Step(cfg, es, evs[0]).entries, evs[1..]);
    }
  }
}
