/** No piece of mail is acknowledged more than once: what can be acknowledged is
    bounded by the mail that was begun. */
module MailCredits {
  import opened Text
  import opened Sequences
  import opened Checksum
  import opened Reassembly
  import opened ReassemblyRuns
  import opened ReassemblyLaws

  predicate IsMail(verb: Verb) { verb.Msg? || verb.MsgTo? }

  /** Unfinished mail at the keys of interest. */
  function Unfinished(keys: Key -> bool): Entry -> bool {
    (e: Entry) => e.buffer.buffered && (e.buffer.verb.Msg? || e.buffer.verb.MsgTo?) && keys(e.key)
  }

  function KeyOfMessage(m: Message): Key { Key(m.fromCall, m.toCall, m.offset) }

  /** Mail at the keys of interest that is acknowledged if addressed to us. */
  function Eligible(keys: Key -> bool): Message -> bool {
    (m: Message) => AckEligible(m) && keys(KeyOfMessage(m))
  }

  predicate StartsMail(ev: Event) {
    ev.Heard? && RoleOf(ev.frame).BufferedStarter? && IsMail(RoleOf(ev.frame).verb)
  }

  /** The keys of interest differ at most at the key of a buffered starter. */
  ghost predicate Rekeyed(keys: Key -> bool, keys': Key -> bool, ev: Event) {
    forall k :: keys'(k) != keys(k) ==> ev.Heard? && RoleOf(ev.frame).BufferedStarter? && k == KeyOf(ev.frame)
  }

  // ---- Counting entries ----

  lemma {:induction false} PopDrops(es: seq<Entry>, e: Entry, p: Entry -> bool)
    requires e in es && p(e)
    ensures |Filter(Pop(es, e.key), p)| < |Filter(es, p)|
  {
    FilterHead(es, NotKey(e.key), p);
    if es[0] == e {
      FilterShorter(es[1..], NotKey(e.key), p);
    } else {
      PopDrops(es[1..], e, p);
    }
  }

  lemma {:induction false} PutKeepsCount(es: seq<Entry>, key: Key, b: Buffer, p: Entry -> bool)
    requires forall e :: e in es && e.key == key ==> p(e) == p(Entry(key, b))
    ensures |Filter(Put(es, key, b), p)| == |Filter(es, p)|
  {
    if es != [] {
      PutKeepsCount(es[1..], key, b, p);
      assert Put(es, key, b)[1..] == Put(es[1..], key, b);
    }
  }

  lemma OneEligible(m: Message, keys: Key -> bool)
    ensures Filter([m], Eligible(keys)) == if AckEligible(m) && keys(KeyOfMessage(m)) then [m] else []
  {
    FilterOne(m, Eligible(keys));
  }

  lemma NoneEligible(ms: seq<Message>, keys: Key -> bool)
    requires forall m :: m in ms ==> !m.buffered || !m.checksumValid
    ensures Filter(ms, Eligible(keys)) == []
  {
    forall m | m in ms ensures !Eligible(keys)(m) { assert !AckEligible(m); }
    FilterNone(ms, Eligible(keys));
  }

  lemma EligibleAfter(done: seq<Message>, out: seq<Message>, keys: Key -> bool)
    requires forall m :: m in done ==> !m.buffered
    ensures Filter(done + out, Eligible(keys)) == Filter(out, Eligible(keys))
  {
    NoneEligible(done, keys);
    FilterAppend(done, out, Eligible(keys));
  }

  lemma AppendCount(es: seq<Entry>, e: Entry, p: Entry -> bool)
    ensures |Filter(es + [e], p)| == |Filter(es, p)| + (if p(e) then 1 else 0)
  {
    FilterAppend(es, [e], p);
    FilterOne(e, p);
  }

  // ---- One frame ----

  function One(b: bool): nat { if b then 1 else 0 }

  lemma StartCredits(es: seq<Entry>, f: ParsedFrame, verb: Verb, rest: Text, now: real,
                     keys: Key -> bool, keys': Key -> bool)
    requires RoleOf(f) == BufferedStarter(verb, rest) && Rekeyed(keys, keys', Heard(f, now))
    ensures var r := OnBufferedStarter(es, f, verb, rest, now);
      |Filter(r.out, Eligible(keys'))| + |Filter(r.entries, Unfinished(keys'))|
      <= |Filter(es, Unfinished(keys))| + One(IsMail(verb) && keys'(KeyOf(f)))
  {
    var key, others, single := KeyOf(f), Pop(es, KeyOf(f)), SingleFrame(f, verb, rest, now);
    FilterShorter(es, NotKey(key), Unfinished(keys));
    FilterCongruent(others, Unfinished(keys), Unfinished(keys'));
    if single.Some? {
      OneEligible(single.value, keys');
    } else {
      AppendCount(others, Entry(key, NewBuffer(f, verb, rest, now, true)), Unfinished(keys'));
    }
  }

  lemma PreemptCredits(es: seq<Entry>, f: ParsedFrame, now: real, keys: Key -> bool)
    requires WellFormed(es)
    ensures var r := OnNonBufferedStarter(es, f, now);
      |Filter(r.out, Eligible(keys))| + |Filter(r.entries, Unfinished(keys))| <= |Filter(es, Unfinished(keys))|
  {
    var key, body := KeyOf(f), Without(f.body, EOT);
    var prior := Lookup(es, key);
    AppendCount(Pop(es, key), Entry(key, NewBuffer(f, Other(FirstWord(body)), body, now, false)), Unfinished(keys));
    FilterShorter(es, NotKey(key), Unfinished(keys));
    if prior.Some? {
      var e, m := Entry(key, prior.value), Emit(prior.value, true, now);
      assert Agrees(e) && KeyOfMessage(m) == key;
      OneEligible(m, keys);
      if Unfinished(keys)(e) { PopDrops(es, e, Unfinished(keys)); }
    }
  }

  lemma ConcludeCredits(es: seq<Entry>, chosen: Entry, b: Buffer, validated: Option<Text>, eot: bool, now: real,
                        keys: Key -> bool)
    requires WellFormed(es) && chosen in es
    requires b.fromCall == chosen.buffer.fromCall && b.toCall == chosen.buffer.toCall
    requires b.bucket == chosen.buffer.bucket && b.verb == chosen.buffer.verb && b.buffered == chosen.buffer.buffered
    ensures var r := Conclude(es, chosen.key, b, validated, eot, now);
      |Filter(r.out, Eligible(keys))| + |Filter(r.entries, Unfinished(keys))| <= |Filter(es, Unfinished(keys))|
  {
    var r, p := Conclude(es, chosen.key, b, validated, eot, now), Unfinished(keys);
    assert Agrees(chosen);
    FilterShorter(es, NotKey(chosen.key), p);
    if r.out != [] {
      OneEligible(r.out[0], keys);
      if p(chosen) { PopDrops(es, chosen, p); }
    } else {
      forall e | e in es && e.key == chosen.key ensures p(e) == p(Entry(chosen.key, b)) { OneAtKey(es, e, chosen); }
      PutKeepsCount(es, chosen.key, b, p);
    }
  }

  lemma ContinueCredits(es: seq<Entry>, f: ParsedFrame, now: real, keys: Key -> bool)
    requires WellFormed(es)
    ensures var r := OnContinuation(es, f, now);
      |Filter(r.out, Eligible(keys))| + |Filter(r.entries, Unfinished(keys))| <= |Filter(es, Unfinished(keys))|
  {
    var candidates := Filter(es, InReach(BucketOffset(f.frequency), f.frequency));
    if candidates != [] {
      var chosen := Latest(candidates);
      var b := Extend(chosen.buffer, f, now);
      ConcludeCredits(es, chosen, b, VerifyChecksum16(b.body), EOT in f.body, now, keys);
    }
  }

  lemma ProcessCredits(es: seq<Entry>, f: ParsedFrame, now: real, keys: Key -> bool, keys': Key -> bool)
    requires WellFormed(es) && Rekeyed(keys, keys', Heard(f, now))
    ensures var r := Process(es, f, now);
      |Filter(r.out, Eligible(keys'))| + |Filter(r.entries, Unfinished(keys'))|
      <= |Filter(es, Unfinished(keys))| + One(StartsMail(Heard(f, now)) && keys'(KeyOf(f)))
  {
    match RoleOf(f)
    case BufferedStarter(verb, rest) => StartCredits(es, f, verb, rest, now, keys, keys');
    case _ =>
      FilterCongruent(es, Unfinished(keys), Unfinished(keys'));
      match RoleOf(f) {
        case NonBufferedStarter => PreemptCredits(es, f, now, keys');
        case Continuation => ContinueCredits(es, f, now, keys');
        case Unrelated =>
      }
  }

  // ---- One event ----

  /** Sweeps and evictions hand over nothing that is acknowledged; a frame
      completes at most one message. */
  lemma EligibleOfStep(cfg: Timeouts, es: seq<Entry>, ev: Event, keys: Key -> bool)
    ensures Filter(Step(cfg, es, ev).out, Eligible(keys))
         == if ev.Heard? then Filter(Process(Filter(es, Live(cfg, ev.at)), ev.frame, ev.at).out, Eligible(keys)) else []
  {
    match ev
    case Heard(f, now) =>
      DoneIsNotBuffered(cfg, es, now);
      EligibleAfter(Map(Filter(es, Expired(cfg, now)), Emitter(true, now)),
                    Process(Filter(es, Live(cfg, now)), f, now).out, keys);
    case CompletedSweep(now) =>
      DoneIsNotBuffered(cfg, es, now);
      NoneEligible(Step(cfg, es, ev).out, keys);
    case TimeoutSweep(now) =>
      LapsedIsUnchecked(cfg, es, now);
      NoneEligible(Step(cfg, es, ev).out, keys);
  }

  /** At most one message of an event is acknowledged, and none of an ACK frame. */
  lemma OneAnswerAnEvent(cfg: Timeouts, es: seq<Entry>, ev: Event, keys: Key -> bool)
    ensures |Filter(Step(cfg, es, ev).out, Eligible(keys))| <= 1
    ensures ev.Heard? && ev.frame.kind.Ack? ==> Filter(Step(cfg, es, ev).out, Eligible(keys)) == []
  {
    EligibleOfStep(cfg, es, ev, keys);
    if ev.Heard? {
      AtMostOne(Filter(es, Live(cfg, ev.at)), ev.frame, ev.at);
      FewEligible(Process(Filter(es, Live(cfg, ev.at)), ev.frame, ev.at).out, keys);
    }
  }

  lemma AtMostOne(es: seq<Entry>, f: ParsedFrame, now: real)
    ensures |Process(es, f, now).out| <= 1
    ensures f.kind.Ack? ==> Process(es, f, now).out == []
  {
    match RoleOf(f)
    case BufferedStarter(verb, rest) =>
    case NonBufferedStarter =>
    case Continuation =>
    case Unrelated =>
  }

  lemma FewEligible(ms: seq<Message>, keys: Key -> bool)
    requires |ms| <= 1
    ensures |Filter(ms, Eligible(keys))| <= |ms|
  {
    if ms != [] {
      assert ms == [ms[0]];
      OneEligible(ms[0], keys);
    }
  }

  lemma StepCredits(cfg: Timeouts, es: seq<Entry>, ev: Event, keys: Key -> bool, keys': Key -> bool)
    requires WellFormed(es) && Rekeyed(keys, keys', ev)
    ensures var o := Step(cfg, es, ev);
      |Filter(o.out, Eligible(keys'))| + |Filter(o.entries, Unfinished(keys'))|
      <= |Filter(es, Unfinished(keys))| + One(StartsMail(ev) && keys'(KeyOf(ev.frame)))
  {
    EligibleOfStep(cfg, es, ev, keys');
    match ev
    case Heard(f, now) =>
      FilterWellFormed(es, Live(cfg, now));
      FilterShorter(es, Live(cfg, now), Unfinished(keys));
      ProcessCredits(Filter(es, Live(cfg, now)), f, now, keys, keys');
    case CompletedSweep(now) =>
      FilterShorter(es, Not(Expired(cfg, now)), Unfinished(keys'));
      FilterCongruent(es, Unfinished(keys), Unfinished(keys'));
    case TimeoutSweep(now) =>
      FilterShorter(es, Not(Lapsed(cfg, now)), Unfinished(keys'));
      FilterCongruent(es, Unfinished(keys), Unfinished(keys'));
  }

  // ---- Whole runs ----

  function AnyKey(): Key -> bool { (k: Key) => true }

  function MailStarters(evs: seq<Event>): nat {
    if evs == [] then 0 else One(StartsMail(evs[0])) + MailStarters(evs[1..])
  }

  /** Over any run, the messages to be acknowledged and the mail left unfinished
      are no more than the mail unfinished before and the mail begun. */
  lemma {:induction false} RunCredits(cfg: Timeouts, es: seq<Entry>, evs: seq<Event>)
    requires WellFormed(es)
    ensures |Filter(Output(Assembling(cfg), es, evs), Eligible(AnyKey()))|
          + |Filter(Final(Assembling(cfg), es, evs), Unfinished(AnyKey()))|
         <= |Filter(es, Unfinished(AnyKey()))| + MailStarters(evs)
    decreases |evs|
  {
    if evs != [] {
      var o := Step(cfg, es, evs[0]);
      StepCredits(cfg, es, evs[0], AnyKey(), AnyKey());
      StepWellFormed(cfg, es, evs[0]);
      RunCredits(cfg, o.entries, evs[1..]);
      FilterAppend(if evs[0].TimeoutSweep? then [] else o.out, Output(Assembling(cfg), o.entries, evs[1..]),
                   Eligible(AnyKey()));
    }
  }
}
