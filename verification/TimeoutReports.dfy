/** Which messages that failed by timeout are reported to the operator. */
module TimeoutReports {
  import opened Sequences
  import opened Reassembly
  import opened ReassemblyRuns

  // ---- A frame silences the reports ----

  lemma PutTouches(es: seq<Entry>, key: Key, b: Buffer)
    ensures forall e :: e in Put(es, key, b) ==> e in es || e == Entry(key, b)
  {
    var r := Put(es, key, b);
    forall e | e in r ensures e in es || e == Entry(key, b) {
      var i :| 0 <= i < |r| && r[i] == e;
      assert es[i] in es;
    }
  }

  /** The buffers after a frame are old ones, old ones extended, or new. */
  ghost predicate Descends(es: seq<Entry>, d: Entry, now: real) {
    || d in es
    || (d.buffer.lastFrameAt == now
        && (d.buffer.startedAt == now
            || exists e :: e in es && e.key == d.key && e.buffer.startedAt == d.buffer.startedAt))
  }

  lemma ProcessDescends(es: seq<Entry>, f: ParsedFrame, now: real)
    ensures forall d :: d in Process(es, f, now).entries ==> Descends(es, d, now)
  {
    match RoleOf(f)
    case BufferedStarter(_, _) =>
    case NonBufferedStarter =>
    case Continuation =>
      var candidates := Filter(es, InReach(BucketOffset(f.frequency), f.frequency));
      if candidates != [] {
        var chosen := Latest(candidates);
        PutTouches(es, chosen.key, Extend(chosen.buffer, f, now));
      }
    case Unrelated =>
  }

  /** Once any frame is fed, at whatever offset, a timeout sweep has nothing to
      report: the failed messages went without a word. */
  lemma FeedSilencesTimeouts(cfg: Timeouts, es: seq<Entry>, f: ParsedFrame, now: real)
    requires 0.0 <= cfg.frame
    ensures AfterSweepTimeouts(cfg, AfterFeed(cfg, es, f, now).entries, now).out == []
    ensures forall e :: e in es && Lapsed(cfg, now)(e) ==> e in AfterFeed(cfg, es, f, now).lost
  {
    ProcessDescends(Filter(es, Live(cfg, now)), f, now);
    FilterNone(AfterFeed(cfg, es, f, now).entries, Lapsed(cfg, now));
  }

  // ---- What is reported over a run ----

  /** The failed messages that the timeout sweeps of a run report. */
  function Reports(m: Machine, es: seq<Entry>, evs: seq<Event>): seq<Message>
    decreases |evs|
  {
    if evs == [] then []
    else
      var o := m(es, evs[0]);
      (if evs[0].TimeoutSweep? then o.out else []) + Reports(m, o.entries, evs[1..])
  }

  /** A timeout sweep comes before any frame. */
  predicate SweptFirst(evs: seq<Event>) {
    evs != [] && (evs[0].TimeoutSweep? || (evs[0].CompletedSweep? && SweptFirst(evs[1..])))
  }

  ghost predicate Reported(ms: seq<Message>, b: Buffer) {
    exists m :: m in ms && Untimed(m) == Untimed(Emit(b, false, 0.0))
  }

  /** Nothing starts after its last frame, or has had a frame after `now`. */
  ghost predicate Timed(es: seq<Entry>, now: real) {
    forall e :: e in es ==> e.buffer.startedAt <= e.buffer.lastFrameAt <= now
  }

  lemma StepDescends(cfg: Timeouts, es: seq<Entry>, ev: Event)
    ensures forall d :: d in Step(cfg, es, ev).entries ==> Descends(es, d, ev.at)
  {
    if ev.Heard? { ProcessDescends(Filter(es, Live(cfg, ev.at)), ev.frame, ev.at); }
  }

  lemma {:induction false} RunTimed(cfg: Timeouts, es: seq<Entry>, evs: seq<Event>, from: real) returns (until: real)
    requires WellFormed(es) && Timed(es, from) && Ordered(evs, from)
    ensures WellFormed(Final(Assembling(cfg), es, evs)) && Timed(Final(Assembling(cfg), es, evs), until)
    decreases |evs|
  {
    if evs == [] {
      until := from;
    } else {
      StepDescends(cfg, es, evs[0]);
      StepWellFormed(cfg, es, evs[0]);
      until := RunTimed(cfg, Step(cfg, es, evs[0]).entries, evs[1..], evs[0].at);
    }
  }

  // ---- A buffer that was dropped ----

  /** At the key of the buffer that was dropped there is at most a later one. */
  ghost predicate Gone(es: seq<Entry>, e: Entry) {
    forall d :: d in es && d.key == e.key ==> d.buffer.startedAt > e.buffer.startedAt
  }

  lemma GoneStays(cfg: Timeouts, es: seq<Entry>, ev: Event, e: Entry)
    requires Gone(es, e) && e.buffer.startedAt < ev.at
    ensures Gone(Step(cfg, es, ev).entries, e)
  {
    StepDescends(cfg, es, ev);
  }

  /** A frame finds it lapsed, and it goes without a word. */
  lemma FrameDrops(cfg: Timeouts, es: seq<Entry>, f: ParsedFrame, now: real, e: Entry)
    requires WellFormed(es) && e in es && Lapsed(cfg, now)(e) && e.buffer.startedAt < now
    ensures Gone(AfterFeed(cfg, es, f, now).entries, e)
  {
    var live := Filter(es, Live(cfg, now));
    forall d | d in live ensures d.key != e.key {
      if d.key == e.key { OneAtKey(es, d, e); }
    }
    ProcessDescends(live, f, now);
  }

  lemma SweepReports(cfg: Timeouts, es: seq<Entry>, now: real, e: Entry)
    requires forall d :: d in es ==> Agrees(d)
    requires Agrees(e)
    ensures e in es && Lapsed(cfg, now)(e) ==> Reported(AfterSweepTimeouts(cfg, es, now).out, e.buffer)
    ensures Gone(es, e) ==> !Reported(AfterSweepTimeouts(cfg, es, now).out, e.buffer)
  {
    var lapsed := Filter(es, Lapsed(cfg, now));
    var out := Map(lapsed, Emitter(false, now));
    if e in es && Lapsed(cfg, now)(e) {
      var i :| 0 <= i < |lapsed| && lapsed[i] == e;
      assert out[i] in out && Untimed(out[i]) == Untimed(Emit(e.buffer, false, 0.0));
    }
    if Gone(es, e) {
      forall m | m in out ensures Untimed(m) != Untimed(Emit(e.buffer, false, 0.0)) {
        var i :| 0 <= i < |out| && out[i] == m;
        assert lapsed[i] in es && Agrees(lapsed[i]);
        if lapsed[i].key != e.key { assert Agrees(e); }
      }
    }
  }

  lemma {:induction false} NeverReported(cfg: Timeouts, es: seq<Entry>, evs: seq<Event>, e: Entry, from: real)
    requires WellFormed(es) && Agrees(e) && Gone(es, e) && e.buffer.startedAt < from && Ordered(evs, from)
    ensures !Reported(Reports(Assembling(cfg), es, evs), e.buffer)
    decreases |evs|
  {
    if evs != [] {
      SweepReports(cfg, es, evs[0].at, e);
      GoneStays(cfg, es, evs[0], e);
      StepWellFormed(cfg, es, evs[0]);
      NeverReported(cfg, Step(cfg, es, evs[0]).entries, evs[1..], e, evs[0].at);
    }
  }

  /** Once lapsed, a message is reported if and only if a timeout sweep comes
      before the next frame. */
  lemma {:induction false} LapsedIsReported(cfg: Timeouts, es: seq<Entry>, evs: seq<Event>, e: Entry, from: real)
    requires 0.0 <= cfg.frame && WellFormed(es) && e in es && Lapsed(cfg, from)(e)
    requires e.buffer.startedAt <= e.buffer.lastFrameAt && Ordered(evs, from)
    ensures Reported(Reports(Assembling(cfg), es, evs), e.buffer) <==> SweptFirst(evs)
    decreases |evs|
  {
    if evs != [] {
      var now := evs[0].at;
      StepWellFormed(cfg, es, evs[0]);
      match evs[0] {
        case Heard(f, _) =>
          FrameDrops(cfg, es, f, now, e);
          NeverReported(cfg, Step(cfg, es, evs[0]).entries, evs[1..], e, now);
        case CompletedSweep(_) =>
          LapsedIsReported(cfg, Step(cfg, es, evs[0]).entries, evs[1..], e, now);
        case TimeoutSweep(_) =>
          SweepReports(cfg, es, now, e);
      }
    }
  }

  /** In any run of the assembler: what has failed by `from` is reported later if
      and only if a timeout sweep comes before the next frame, at any offset. */
  lemma ReportedIff(cfg: Timeouts, past: seq<Event>, start: real, e: Entry, from: real, evs: seq<Event>)
    requires 0.0 <= cfg.frame && Ordered(past, start) && Ordered(evs, from)
    requires e in Final(Assembling(cfg), [], past) && Lapsed(cfg, from)(e)
    ensures Reported(Reports(Assembling(cfg), Final(Assembling(cfg), [], past), evs), e.buffer) <==> SweptFirst(evs)
  {
    var until := RunTimed(cfg, [], past, start);
    LapsedIsReported(cfg, Final(Assembling(cfg), [], past), evs, e, from);
  }
}
