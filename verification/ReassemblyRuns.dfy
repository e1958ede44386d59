/** Whole runs of the assembler: traffic at other audio offsets may change
    when a message is handed over, never which messages are. */
module ReassemblyRuns {
  import opened Text
  import opened Sequences
  import opened Reassembly

  // ---- Runs ----

  datatype Event =
    | Heard(frame: ParsedFrame, at: real)
    | CompletedSweep(at: real)
    | TimeoutSweep(at: real)

  function Step(cfg: Timeouts, es: seq<Entry>, ev: Event): Outcome {
    match ev
    case Heard(f, now) => AfterFeed(cfg, es, f, now)
    case CompletedSweep(now) => AfterSweepCompleted(cfg, es, now)
    case TimeoutSweep(now) => AfterSweepTimeouts(cfg, es, now)
  }

  type Machine = (seq<Entry>, Event) -> Outcome

  function Assembling(cfg: Timeouts): Machine {
    (es: seq<Entry>, ev: Event) => Step(cfg, es, ev)
  }

  /** The messages from `feed` and `sweep_completed`, in order. */
  function Output(m: Machine, es: seq<Entry>, evs: seq<Event>): seq<Message>
    decreases |evs|
  {
    if evs == [] then []
    else
      var o := m(es, evs[0]);
      (if evs[0].TimeoutSweep? then [] else o.out) + Output(m, o.entries, evs[1..])
  }

  /** The buffers after a run. */
  function Final(m: Machine, es: seq<Entry>, evs: seq<Event>): seq<Entry>
    decreases |evs|
  {
    if evs == [] then es else Final(m, m(es, evs[0]).entries, evs[1..])
  }

  lemma {:induction false} FinalSplits(m: Machine, es: seq<Entry>, xs: seq<Event>, ys: seq<Event>)
    ensures Final(m, es, xs + ys) == Final(m, Final(m, es, xs), ys)
    decreases |xs|
  {
    if xs == [] {
      assert xs + ys == ys;
    } else {
      assert (xs + ys)[0] == xs[0] && (xs + ys)[1..] == xs[1..] + ys;
      FinalSplits(m, m(es, xs[0]).entries, xs[1..], ys);
    }
  }

  lemma {:induction false} OutputSplits(m: Machine, es: seq<Entry>, xs: seq<Event>, ys: seq<Event>)
    ensures Output(m, es, xs + ys) == Output(m, es, xs) + Output(m, Final(m, es, xs), ys)
    decreases |xs|
  {
    if xs == [] {
      assert xs + ys == ys;
    } else {
      assert (xs + ys)[0] == xs[0] && (xs + ys)[1..] == xs[1..] + ys;
      var o := m(es, xs[0]);
      OutputSplits(m, o.entries, xs[1..], ys);
      Reassociate(if xs[0].TimeoutSweep? then [] else o.out, Output(m, o.entries, xs[1..]),
                  Output(m, Final(m, o.entries, xs[1..]), ys));
    }
  }

  lemma Reassociate(a: seq<Message>, b: seq<Message>, c: seq<Message>)
    ensures a + (b + c) == (a + b) + c
  {
  }

  lemma OutputOne(m: Machine, es: seq<Entry>, ev: Event)
    requires !ev.TimeoutSweep?
    ensures Output(m, es, [ev]) == m(es, ev).out
    ensures Final(m, es, [ev]) == m(es, ev).entries
  {
    assert [ev][1..] == [];
    assert m(es, ev).out + [] == m(es, ev).out;
  }

  /** The clock never runs backwards. */
  ghost predicate Ordered(evs: seq<Event>, from: real) {
    evs == [] || (from <= evs[0].at && Ordered(evs[1..], evs[0].at))
  }

  // ---- A set of audio offsets, on its own ----

  function Among(a: int -> bool): Entry -> bool { (e: Entry) => a(e.key.bucket) }

  /** Only the frames heard at those offsets; the sweeps are dropped too. */
  function Restrict(a: int -> bool, evs: seq<Event>): seq<Event> {
    if evs == [] then []
    else
      (if evs[0].Heard? && a(BucketOffset(evs[0].frame.frequency)) then [evs[0]] else [])
      + Restrict(a, evs[1..])
  }

  function Untimed(m: Message): Message { m.(completedAt := 0.0) }

  /** The messages at those offsets, regardless of order and hand-over time. */
  function Bag(a: int -> bool, ms: seq<Message>): multiset<Message> {
    if ms == [] then multiset{}
    else (if a(ms[0].offset) then multiset{Untimed(ms[0])} else multiset{}) + Bag(a, ms[1..])
  }

  /** What is ready to be handed over at `now`. */
  function Ready(cfg: Timeouts, a: int -> bool, es: seq<Entry>, now: real): multiset<Message> {
    if es == [] then multiset{}
    else
      (if a(es[0].key.bucket) && Expired(cfg, now)(es[0])
       then multiset{Untimed(Emit(es[0].buffer, true, now))} else multiset{})
      + Ready(cfg, a, es[1..], now)
  }

  lemma {:induction false} BagAppend(a: int -> bool, ms: seq<Message>, ns: seq<Message>)
    ensures Bag(a, ms + ns) == Bag(a, ms) + Bag(a, ns)
  {
    if ms == [] {
      assert ms + ns == ns;
    } else {
      assert (ms + ns)[1..] == ms[1..] + ns;
      BagAppend(a, ms[1..], ns);
    }
  }

  lemma {:induction false} ReadyIsEmitted(cfg: Timeouts, a: int -> bool, es: seq<Entry>, now: real)
    requires forall e :: e in es ==> Agrees(e)
    ensures Bag(a, Map(Filter(es, Expired(cfg, now)), Emitter(true, now))) == Ready(cfg, a, es, now)
  {
    if es != [] {
      ReadyIsEmitted(cfg, a, es[1..], now);
      assert Agrees(es[0]);
      FilterCons(es, Expired(cfg, now));
      if Expired(cfg, now)(es[0]) { MapCons(Filter(es, Expired(cfg, now)), Emitter(true, now)); }
    }
  }

  lemma FilterCons(es: seq<Entry>, p: Entry -> bool)
    requires es != []
    ensures p(es[0]) ==> Filter(es, p) != [] && Filter(es, p)[0] == es[0] && Filter(es, p)[1..] == Filter(es[1..], p)
    ensures !p(es[0]) ==> Filter(es, p) == Filter(es[1..], p)
  {
    if p(es[0]) { assert Filter(es, p) == [es[0]] + Filter(es[1..], p); }
  }

  lemma MapCons(es: seq<Entry>, f: Entry -> Message)
    requires es != []
    ensures Map(es, f)[0] == f(es[0]) && Map(es, f)[1..] == Map(es[1..], f)
  {
  }

  lemma FeedBag(cfg: Timeouts, a: int -> bool, es: seq<Entry>, f: ParsedFrame, now: real)
    requires WellFormed(es)
    ensures Bag(a, AfterFeed(cfg, es, f, now).out)
         == Ready(cfg, a, es, now) + Bag(a, Process(Filter(es, Live(cfg, now)), f, now).out)
  {
    ReadyIsEmitted(cfg, a, es, now);
    BagAppend(a, Map(Filter(es, Expired(cfg, now)), Emitter(true, now)),
                 Process(Filter(es, Live(cfg, now)), f, now).out);
  }

  // ---- Handing over early or late ----

  lemma {:induction false} ReadyLater(cfg: Timeouts, a: int -> bool, es: seq<Entry>, t: real, t': real)
    requires t <= t'
    ensures Ready(cfg, a, es, t') == Ready(cfg, a, es, t) + Ready(cfg, a, Filter(es, Live(cfg, t)), t')
  {
    if es != [] {
      ReadyLater(cfg, a, es[1..], t, t');
      FilterCons(es, Live(cfg, t));
    }
  }

  /** Removing what cannot become ready, now or here, leaves Ready as it is. */
  lemma {:induction false} ReadyOfFilter(cfg: Timeouts, a: int -> bool, es: seq<Entry>, p: Entry -> bool, now: real)
    requires forall e :: e in es && a(e.key.bucket) && Expired(cfg, now)(e) ==> p(e)
    ensures Ready(cfg, a, Filter(es, p), now) == Ready(cfg, a, es, now)
  {
    if es != [] {
      ReadyOfFilter(cfg, a, es[1..], p, now);
      FilterCons(es, p);
    }
  }

  lemma {:induction false} NothingReady(cfg: Timeouts, a: int -> bool, es: seq<Entry>, now: real)
    requires forall e :: e in es ==> !Expired(cfg, now)(e)
    ensures Ready(cfg, a, es, now) == multiset{}
  {
    if es != [] { NothingReady(cfg, a, es[1..], now); }
  }

  lemma LiveLater(cfg: Timeouts, es: seq<Entry>, t: real, t': real)
    requires t <= t'
    ensures Filter(Filter(es, Live(cfg, t)), Live(cfg, t')) == Filter(es, Live(cfg, t'))
  {
    FilterWeaker(es, Live(cfg, t), Live(cfg, t'));
  }

  lemma EvictHeard(cfg: Timeouts, a: int -> bool, es: seq<Entry>, t: real, f: ParsedFrame, now: real)
    requires WellFormed(es) && t <= now
    ensures var all, live := AfterFeed(cfg, es, f, now), AfterFeed(cfg, Filter(es, Live(cfg, t)), f, now);
      all.entries == live.entries && Bag(a, all.out) == Ready(cfg, a, es, t) + Bag(a, live.out)
  {
    var live := Filter(es, Live(cfg, t));
    FilterWellFormed(es, Live(cfg, t));
    ReadyLater(cfg, a, es, t, now);
    FeedBag(cfg, a, es, f, now);
    FeedBag(cfg, a, live, f, now);
    LiveLater(cfg, es, t, now);
  }

  lemma EvictCompleted(cfg: Timeouts, a: int -> bool, es: seq<Entry>, t: real, end: real)
    requires WellFormed(es) && t <= end
    ensures Bag(a, AfterSweepCompleted(cfg, es, end).out)
         == Ready(cfg, a, es, t) + Bag(a, AfterSweepCompleted(cfg, Filter(es, Live(cfg, t)), end).out)
  {
    var live := Filter(es, Live(cfg, t));
    FilterWellFormed(es, Live(cfg, t));
    ReadyLater(cfg, a, es, t, end);
    ReadyIsEmitted(cfg, a, es, end);
    ReadyIsEmitted(cfg, a, live, end);
  }

  lemma OutputBag(m: Machine, a: int -> bool, es: seq<Entry>, evs: seq<Event>)
    requires evs != []
    ensures var o := m(es, evs[0]);
      Bag(a, Output(m, es, evs))
      == (if evs[0].TimeoutSweep? then multiset{} else Bag(a, o.out)) + Bag(a, Output(m, o.entries, evs[1..]))
  {
    var o := m(es, evs[0]);
    BagAppend(a, if evs[0].TimeoutSweep? then [] else o.out, Output(m, o.entries, evs[1..]));
  }

  /** Two starting points that agree after one event. */
  lemma FirstEventDiffers(m: Machine, a: int -> bool, es: seq<Entry>, live: seq<Entry>, evs: seq<Event>,
                          early: multiset<Message>)
    requires evs != [] && !evs[0].TimeoutSweep?
    requires Bag(a, m(es, evs[0]).out) == early + Bag(a, m(live, evs[0]).out)
    requires evs[1..] == [] || m(es, evs[0]).entries == m(live, evs[0]).entries
    ensures Bag(a, Output(m, es, evs)) == early + Bag(a, Output(m, live, evs))
  {
    OutputBag(m, a, es, evs);
    OutputBag(m, a, live, evs);
  }

  /** A run of frames closed by one completed sweep does not care whether its
      stale buffers were already cleared. */
  lemma EvictLater(cfg: Timeouts, a: int -> bool, es: seq<Entry>, t: real, frames: seq<Event>, end: real)
    requires WellFormed(es) && t <= end && (frames != [] ==> frames[0].Heard? && t <= frames[0].at)
    ensures Bag(a, Output(Assembling(cfg), es, frames + [CompletedSweep(end)]))
         == Ready(cfg, a, es, t)
          + Bag(a, Output(Assembling(cfg), Filter(es, Live(cfg, t)), frames + [CompletedSweep(end)]))
  {
    var evs := frames + [CompletedSweep(end)];
    if frames == [] {
      EvictCompleted(cfg, a, es, t, end);
    } else {
      EvictHeard(cfg, a, es, t, evs[0].frame, evs[0].at);
    }
    FirstEventDiffers(Assembling(cfg), a, es, Filter(es, Live(cfg, t)), evs, Ready(cfg, a, es, t));
  }

  // ---- One frame, seen from a set of offsets ----

  lemma StepWellFormed(cfg: Timeouts, es: seq<Entry>, ev: Event)
    requires WellFormed(es)
    ensures WellFormed(Step(cfg, es, ev).entries)
  {
    match ev
    case Heard(f, now) =>
      FilterWellFormed(es, Live(cfg, now));
      ProcessWellFormed(Filter(es, Live(cfg, now)), f, now);
    case CompletedSweep(now) => FilterWellFormed(es, Not(Expired(cfg, now)));
    case TimeoutSweep(now) => FilterWellFormed(es, Not(Lapsed(cfg, now)));
  }

  lemma ProcessWellFormed(es: seq<Entry>, f: ParsedFrame, now: real)
    requires WellFormed(es)
    ensures WellFormed(Process(es, f, now).entries)
  {
    var key := KeyOf(f);
    FilterWellFormed(es, NotKey(key));
    match RoleOf(f)
    case BufferedStarter(verb, rest) =>
      StartWellFormed(es, key, NewBuffer(f, verb, rest, now, true));
    case NonBufferedStarter =>
      var body := Without(f.body, EOT);
      StartWellFormed(es, key, NewBuffer(f, Other(FirstWord(body)), body, now, false));
    case Continuation =>
      var candidates := Filter(es, InReach(BucketOffset(f.frequency), f.frequency));
      if candidates != [] {
        var chosen := Latest(candidates);
        FilterWellFormed(es, NotKey(chosen.key));
        PutWellFormed(es, chosen.key, Extend(chosen.buffer, f, now));
      }
    case Unrelated =>
  }

  lemma PopAmong(a: int -> bool, es: seq<Entry>, key: Key)
    ensures Filter(Pop(es, key), Among(a)) == Pop(Filter(es, Among(a)), key)
    ensures !a(key.bucket) ==> Filter(Pop(es, key), Among(a)) == Filter(es, Among(a))
  {
    FilterSwap(es, NotKey(key), Among(a));
    if !a(key.bucket) { FilterWeaker(es, NotKey(key), Among(a)); }
  }

  lemma AppendAmong(a: int -> bool, es: seq<Entry>, e: Entry)
    ensures Filter(es + [e], Among(a)) == Filter(es, Among(a)) + (if a(e.key.bucket) then [e] else [])
  {
    FilterAppend(es, [e], Among(a));
  }

  lemma {:induction false} LookupAmong(a: int -> bool, es: seq<Entry>, key: Key)
    requires a(key.bucket)
    ensures Lookup(Filter(es, Among(a)), key) == Lookup(es, key)
  {
    if es != [] {
      LookupAmong(a, es[1..], key);
      FilterCons(es, Among(a));
    }
  }

  lemma {:induction false} PutAmong(a: int -> bool, es: seq<Entry>, key: Key, b: Buffer)
    ensures Filter(Put(es, key, b), Among(a))
         == if a(key.bucket) then Put(Filter(es, Among(a)), key, b) else Filter(es, Among(a))
  {
    if es != [] {
      PutAmong(a, es[1..], key, b);
      FilterCons(es, Among(a));
    }
  }

  lemma StartAmong(a: int -> bool, es: seq<Entry>, key: Key, b: Buffer)
    ensures Filter(Pop(es, key) + [Entry(key, b)], Among(a))
         == if a(key.bucket) then Pop(Filter(es, Among(a)), key) + [Entry(key, b)] else Filter(es, Among(a))
  {
    PopAmong(a, es, key);
    AppendAmong(a, Pop(es, key), Entry(key, b));
  }

  lemma ConcludeAmong(a: int -> bool, es: seq<Entry>, key: Key, b: Buffer,
                      validated: Option<Text>, eot: bool, now: real)
    ensures a(key.bucket) ==>
      var l := Conclude(Filter(es, Among(a)), key, b, validated, eot, now);
      var r := Conclude(es, key, b, validated, eot, now);
      l.out == r.out && l.entries == Filter(r.entries, Among(a))
    ensures !a(key.bucket) ==>
      var r := Conclude(es, key, b, validated, eot, now);
      Filter(r.entries, Among(a)) == Filter(es, Among(a)) && (b.bucket == key.bucket ==> Bag(a, r.out) == multiset{})
  {
    PopAmong(a, es, key);
    PutAmong(a, es, key, b);
  }

  lemma ContinueInside(a: int -> bool, es: seq<Entry>, f: ParsedFrame, now: real)
    requires a(BucketOffset(f.frequency))
    ensures OnContinuation(Filter(es, Among(a)), f, now).out == OnContinuation(es, f, now).out
    ensures OnContinuation(Filter(es, Among(a)), f, now).entries
         == Filter(OnContinuation(es, f, now).entries, Among(a))
  {
    var reach := InReach(BucketOffset(f.frequency), f.frequency);
    FilterWeaker(es, Among(a), reach);
    if Filter(es, reach) != [] {
      var chosen := Latest(Filter(es, reach));
      var b := Extend(chosen.buffer, f, now);
      ConcludeAmong(a, es, chosen.key, b, Checksum.VerifyChecksum16(b.body), EOT in f.body, now);
    }
  }

  /** A frame at one of the offsets acts only on the buffers there. */
  lemma ProcessInside(a: int -> bool, es: seq<Entry>, f: ParsedFrame, now: real)
    requires a(BucketOffset(f.frequency))
    ensures Process(Filter(es, Among(a)), f, now).out == Process(es, f, now).out
    ensures Process(Filter(es, Among(a)), f, now).entries == Filter(Process(es, f, now).entries, Among(a))
  {
    var key := KeyOf(f);
    match RoleOf(f)
    case BufferedStarter(verb, rest) =>
      PopAmong(a, es, key);
      StartAmong(a, es, key, NewBuffer(f, verb, rest, now, true));
    case NonBufferedStarter =>
      var body := Without(f.body, EOT);
      LookupAmong(a, es, key);
      StartAmong(a, es, key, NewBuffer(f, Other(FirstWord(body)), body, now, false));
    case Continuation => ContinueInside(a, es, f, now);
    case Unrelated =>
  }

  lemma ContinueOutside(a: int -> bool, es: seq<Entry>, f: ParsedFrame, now: real)
    requires WellFormed(es) && !a(BucketOffset(f.frequency))
    ensures Bag(a, OnContinuation(es, f, now).out) == multiset{}
    ensures Filter(OnContinuation(es, f, now).entries, Among(a)) == Filter(es, Among(a))
  {
    var reach := InReach(BucketOffset(f.frequency), f.frequency);
    if Filter(es, reach) != [] {
      var chosen := Latest(Filter(es, reach));
      assert Agrees(chosen);
      var b := Extend(chosen.buffer, f, now);
      ConcludeAmong(a, es, chosen.key, b, Checksum.VerifyChecksum16(b.body), EOT in f.body, now);
    }
  }

  lemma PreemptOutside(a: int -> bool, es: seq<Entry>, f: ParsedFrame, now: real)
    requires WellFormed(es) && !a(BucketOffset(f.frequency))
    ensures Bag(a, OnNonBufferedStarter(es, f, now).out) == multiset{}
    ensures Filter(OnNonBufferedStarter(es, f, now).entries, Among(a)) == Filter(es, Among(a))
  {
    var key, body := KeyOf(f), Without(f.body, EOT);
    StartAmong(a, es, key, NewBuffer(f, Other(FirstWord(body)), body, now, false));
    var prior := Lookup(es, key);
    assert prior.Some? ==> Agrees(Entry(key, prior.value));
  }

  lemma StartOutside(a: int -> bool, es: seq<Entry>, f: ParsedFrame, verb: Verb, rest: Text, now: real)
    requires !a(BucketOffset(f.frequency))
    ensures Bag(a, OnBufferedStarter(es, f, verb, rest, now).out) == multiset{}
    ensures Filter(OnBufferedStarter(es, f, verb, rest, now).entries, Among(a)) == Filter(es, Among(a))
  {
    var key := KeyOf(f);
    PopAmong(a, es, key);
    StartAmong(a, es, key, NewBuffer(f, verb, rest, now, true));
    var single := SingleFrame(f, verb, rest, now);
    assert single.Some? ==> single.value.offset == key.bucket;
  }

  /** A frame elsewhere leaves them alone and emits nothing of theirs. */
  lemma ProcessOutside(a: int -> bool, es: seq<Entry>, f: ParsedFrame, now: real)
    requires WellFormed(es) && !a(BucketOffset(f.frequency))
    ensures Bag(a, Process(es, f, now).out) == multiset{}
    ensures Filter(Process(es, f, now).entries, Among(a)) == Filter(es, Among(a))
  {
    match RoleOf(f)
    case BufferedStarter(verb, rest) => StartOutside(a, es, f, verb, rest, now);
    case NonBufferedStarter => PreemptOutside(a, es, f, now);
    case Continuation => ContinueOutside(a, es, f, now);
    case Unrelated =>
  }

  // ---- Non-interference ----

  ghost predicate Restricted(frames: seq<Event>, from: real) {
    frames != [] ==> frames[0].Heard? && from <= frames[0].at
  }

  lemma {:induction false} RestrictOrdered(a: int -> bool, evs: seq<Event>, from: real)
    requires Ordered(evs, from)
    ensures Restricted(Restrict(a, evs), from)
  {
    if evs != [] { RestrictOrdered(a, evs[1..], evs[0].at); }
  }

  lemma {:induction false} OrderedEnd(evs: seq<Event>, from: real, end: real)
    requires Ordered(evs + [CompletedSweep(end)], from)
    ensures from <= end && Ordered(evs, from)
  {
    if evs != [] {
      assert (evs + [CompletedSweep(end)])[1..] == evs[1..] + [CompletedSweep(end)];
      OrderedEnd(evs[1..], evs[0].at, end);
    }
  }

  lemma InsideStep(cfg: Timeouts, a: int -> bool, es: seq<Entry>, f: ParsedFrame, now: real, rest: seq<Event>)
    requires WellFormed(es) && a(BucketOffset(f.frequency))
    ensures Bag(a, Output(Assembling(cfg), Filter(es, Among(a)), [Heard(f, now)] + rest))
         == Bag(a, AfterFeed(cfg, es, f, now).out)
            + Bag(a, Output(Assembling(cfg), Filter(AfterFeed(cfg, es, f, now).entries, Among(a)), rest))
  {
    var mine, live := Filter(es, Among(a)), Filter(es, Live(cfg, now));
    FilterWellFormed(es, Among(a));
    FilterWellFormed(es, Live(cfg, now));
    OutputBag(Assembling(cfg), a, mine, [Heard(f, now)] + rest);
    assert ([Heard(f, now)] + rest)[1..] == rest;
    FeedBag(cfg, a, es, f, now);
    FeedBag(cfg, a, mine, f, now);
    ReadyOfFilter(cfg, a, es, Among(a), now);
    FilterSwap(es, Among(a), Live(cfg, now));
    ProcessInside(a, live, f, now);
  }

  lemma EvictMine(cfg: Timeouts, a: int -> bool, es: seq<Entry>, now: real, frames: seq<Event>, end: real)
    requires WellFormed(es) && Restricted(frames, now) && now <= end
    ensures var evs, m := frames + [CompletedSweep(end)], Assembling(cfg);
      Bag(a, Output(m, Filter(es, Among(a)), evs))
      == Ready(cfg, a, es, now) + Bag(a, Output(m, Filter(Filter(es, Live(cfg, now)), Among(a)), evs))
  {
    FilterWellFormed(es, Among(a));
    EvictLater(cfg, a, Filter(es, Among(a)), now, frames, end);
    ReadyOfFilter(cfg, a, es, Among(a), now);
    FilterSwap(es, Among(a), Live(cfg, now));
  }

  lemma OutsideStep(cfg: Timeouts, a: int -> bool, es: seq<Entry>, f: ParsedFrame, now: real,
                    frames: seq<Event>, end: real)
    requires WellFormed(es) && !a(BucketOffset(f.frequency)) && Restricted(frames, now) && now <= end
    ensures var evs := frames + [CompletedSweep(end)];
      Bag(a, Output(Assembling(cfg), Filter(es, Among(a)), evs))
      == Bag(a, AfterFeed(cfg, es, f, now).out)
         + Bag(a, Output(Assembling(cfg), Filter(AfterFeed(cfg, es, f, now).entries, Among(a)), evs))
  {
    FilterWellFormed(es, Live(cfg, now));
    FeedBag(cfg, a, es, f, now);
    ProcessOutside(a, Filter(es, Live(cfg, now)), f, now);
    EvictMine(cfg, a, es, now, frames, end);
  }

  /** A sweep hands over what was ready, and leaves what was alive. */
  lemma SweepReady(cfg: Timeouts, a: int -> bool, es: seq<Entry>, ev: Event)
    requires WellFormed(es) && !ev.Heard?
    ensures var o := Step(cfg, es, ev);
      && Filter(o.entries, Live(cfg, ev.at)) == Filter(es, Live(cfg, ev.at))
      && Ready(cfg, a, es, ev.at)
         == (if ev.TimeoutSweep? then multiset{} else Bag(a, o.out)) + Ready(cfg, a, o.entries, ev.at)
  {
    var now, swept := ev.at, Step(cfg, es, ev).entries;
    if ev.CompletedSweep? {
      ReadyIsEmitted(cfg, a, es, now);
      NothingReady(cfg, a, swept, now);
      FilterWeaker(es, Not(Expired(cfg, now)), Live(cfg, now));
    } else {
      ReadyOfFilter(cfg, a, es, Not(Lapsed(cfg, now)), now);
      FilterWeaker(es, Not(Lapsed(cfg, now)), Live(cfg, now));
    }
  }

  lemma SweepStep(cfg: Timeouts, a: int -> bool, es: seq<Entry>, ev: Event, frames: seq<Event>, end: real)
    requires WellFormed(es) && !ev.Heard? && Restricted(frames, ev.at) && ev.at <= end
    ensures var evs, o := frames + [CompletedSweep(end)], Step(cfg, es, ev);
      Bag(a, Output(Assembling(cfg), Filter(es, Among(a)), evs))
      == (if ev.TimeoutSweep? then multiset{} else Bag(a, o.out))
         + Bag(a, Output(Assembling(cfg), Filter(o.entries, Among(a)), evs))
  {
    StepWellFormed(cfg, es, ev);
    SweepReady(cfg, a, es, ev);
    EvictMine(cfg, a, es, ev.at, frames, end);
    EvictMine(cfg, a, Step(cfg, es, ev).entries, ev.at, frames, end);
  }

  /** One event: the whole run and the restricted run move in step. */
  lemma EventStep(cfg: Timeouts, a: int -> bool, es: seq<Entry>, ev: Event, frames: seq<Event>, end: real)
    requires WellFormed(es) && Restricted(frames, ev.at) && ev.at <= end
    ensures var evs, o := frames + [CompletedSweep(end)], Step(cfg, es, ev);
      Bag(a, Output(Assembling(cfg), Filter(es, Among(a)), Restrict(a, [ev]) + evs))
      == (if ev.TimeoutSweep? then multiset{} else Bag(a, o.out))
         + Bag(a, Output(Assembling(cfg), Filter(o.entries, Among(a)), evs))
  {
    var evs := frames + [CompletedSweep(end)];
    assert [ev][1..] == [];
    if ev.Heard? && a(BucketOffset(ev.frame.frequency)) {
      assert Restrict(a, [ev]) == [ev];
      InsideStep(cfg, a, es, ev.frame, ev.at, evs);
    } else {
      assert Restrict(a, [ev]) + evs == evs;
      if ev.Heard? {
        OutsideStep(cfg, a, es, ev.frame, ev.at, frames, end);
      } else {
        SweepStep(cfg, a, es, ev, frames, end);
      }
    }
  }

  lemma RestrictHead(a: int -> bool, evs: seq<Event>, last: seq<Event>)
    requires evs != []
    ensures Restrict(a, evs) + last == Restrict(a, [evs[0]]) + (Restrict(a, evs[1..]) + last)
  {
    RestrictOne(a, evs[0]);
    Associates(Restrict(a, [evs[0]]), Restrict(a, evs[1..]), last);
  }

  lemma RestrictOne(a: int -> bool, ev: Event)
    ensures Restrict(a, [ev]) == if ev.Heard? && a(BucketOffset(ev.frame.frequency)) then [ev] else []
  {
    assert [ev][1..] == [];
    assert Restrict(a, [ev][1..]) == [];
  }

  lemma Associates(x: seq<Event>, y: seq<Event>, z: seq<Event>)
    ensures (x + y) + z == x + (y + z)
  {
  }

  /** Whatever is heard elsewhere and however often the buffers are swept, the
      messages handed over for a set of offsets by the time of a last sweep are
      those of hearing only the frames there. */
  lemma {:induction false} NonInterference(
    cfg: Timeouts, a: int -> bool, es: seq<Entry>, evs: seq<Event>, from: real, end: real)
    requires WellFormed(es) && Ordered(evs + [CompletedSweep(end)], from)
    ensures Bag(a, Output(Assembling(cfg), es, evs + [CompletedSweep(end)]))
         == Bag(a, Output(Assembling(cfg), Filter(es, Among(a)), Restrict(a, evs) + [CompletedSweep(end)]))
    decreases |evs|
  {
    var last := [CompletedSweep(end)];
    if evs == [] {
      SweepOnly(cfg, a, es, end);
      assert evs + last == last && Restrict(a, evs) + last == last;
    } else {
      assert (evs + last)[0] == evs[0] && (evs + last)[1..] == evs[1..] + last;
      OutputBag(Assembling(cfg), a, es, evs + last);
      StepWellFormed(cfg, es, evs[0]);
      OrderedEnd(evs, from, end);
      OrderedEnd(evs[1..], evs[0].at, end);
      RestrictOrdered(a, evs[1..], evs[0].at);
      NonInterference(cfg, a, Step(cfg, es, evs[0]).entries, evs[1..], evs[0].at, end);
      EventStep(cfg, a, es, evs[0], Restrict(a, evs[1..]), end);
      RestrictHead(a, evs, last);
    }
  }

  lemma SweepOnly(cfg: Timeouts, a: int -> bool, es: seq<Entry>, end: real)
    requires WellFormed(es)
    ensures Bag(a, Output(Assembling(cfg), es, [CompletedSweep(end)]))
         == Bag(a, Output(Assembling(cfg), Filter(es, Among(a)), [CompletedSweep(end)]))
  {
    var last := [CompletedSweep(end)];
    FilterWellFormed(es, Among(a));
    OutputBag(Assembling(cfg), a, es, last);
    OutputBag(Assembling(cfg), a, Filter(es, Among(a)), last);
    ReadyIsEmitted(cfg, a, es, end);
    ReadyIsEmitted(cfg, a, Filter(es, Among(a)), end);
    ReadyOfFilter(cfg, a, es, Among(a), end);
    assert last[1..] == [];
  }
}
