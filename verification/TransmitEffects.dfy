/** The few things a step can do to the transmission in progress. */
module TransmitEffects {
  import opened Text
  import opened Sequences
  import opened Outbound
  import opened Transmit
  import opened Scheduler
  import opened TransmitRuns

  datatype Effect =
    | Quiet              // nothing about the transmission or the air
    | NewSlot            // the next slot begins
    | CutShort           // the watchdog ends the transmission
    | Opened(burst: Burst, at: real)
    | Continued
    | FrameFailed
    | FramePlayed
    | Completed
    | Rebooted

  /** Sent in full, whether or not it was acknowledged since. */
  predicate Complete(r: Row) { r.state.WaitAck? || r.state.Delivered? }

  /** The same rows are SENDING, none becomes complete, and no row forgets an
      attempt or is lost. */
  ghost predicate Undisturbed(t: Table, u: Table) {
    && t.Keys <= u.Keys
    && (forall id :: id in u && id !in t ==> u[id].state.Queued? || u[id].state.Encoding?)
    && (forall id :: id in t ==>
          && (t[id].state.Sending? <==> u[id].state.Sending?)
          && (Complete(u[id]) ==> Complete(t[id]))
          && u[id].draft == t[id].draft && t[id].attempts <= u[id].attempts)
  }

  function FrameOf(b: Burst, slot: nat): AirEvent
    requires b.next < |b.frames|
  {
    Frame(b.id, b.next, b.frames[b.next], slot)
  }

  ghost predicate Has(e: Effect, p: Pipeline, q: Pipeline) {
    var stays := q.bursts == p.bursts && q.keyed == p.keyed;
    var ends := p.bursts != [] && q.bursts == [] && !q.keyed;
    match e
    case Quiet => stays && q.air == p.air && q.slot == p.slot && Undisturbed(p.rows, q.rows)
    case NewSlot => stays && q.air == p.air && q.slot == p.slot + 1 && q.rows == p.rows
    case CutShort =>
      ends && q.air == p.air + [Release] && q.slot == p.slot + 1
      && q.rows == SetState(p.rows, p.bursts[0].id, Abandoned)
    case Opened(b, at) =>
      && p.bursts == [] && !p.keyed && q.bursts == [b] && q.keyed && b.next == 0
      && q.air == p.air + [KeyUp(b.id), FrameOf(b, p.slot)] && q.slot == p.slot
      && b.id in p.rows && p.rows[b.id].state.Queued? && q.rows == MarkSending(p.rows, b.id, at)
    case Continued =>
      && p.bursts != [] && p.bursts[0].next < |p.bursts[0].frames|
      && stays && q.air == p.air + [FrameOf(p.bursts[0], p.slot)] && q.slot == p.slot && q.rows == p.rows
    case FrameFailed =>
      && ends && q.air == p.air + [Release] && q.slot == p.slot
      && p.bursts[0].id in p.rows
      && q.rows == SetState(p.rows, p.bursts[0].id, Verdict(p.rows[p.bursts[0].id]))
    case FramePlayed =>
      && p.bursts != [] && p.bursts[0].next + 1 < |p.bursts[0].frames|
      && q.bursts == [p.bursts[0].(next := p.bursts[0].next + 1)] && q.keyed == p.keyed
      && q.air == p.air + [Played] && q.slot == p.slot && q.rows == p.rows
    case Completed =>
      && ends && p.bursts[0].next + 1 == |p.bursts[0].frames|
      && q.air == p.air + [Played, Release] && q.slot == p.slot
      && p.bursts[0].id in p.rows
      && q.rows == SetState(p.rows, p.bursts[0].id,
                            if FireAndForget(p.rows[p.bursts[0].id].draft) then Delivered else WaitAck)
    case Rebooted =>
      q.bursts == [] && !q.keyed && q.air == p.air + [Boot] && q.slot == p.slot && q.rows == Recovered(p.rows)
  }

  /** The slot has begun: the watchdog has been round. */
  predicate SlotBegun(phase: Phase) { phase.Watched? || phase.Playing? }

  /** How a step moves through the slot. */
  ghost predicate PhaseFits(e: Effect, p: Pipeline, from: Phase, to: Phase) {
    match e
    case Quiet => p.bursts == [] || (SlotBegun(from) == SlotBegun(to) && from.Playing? == to.Playing?)
    case NewSlot => from.Swept? && to.Watched?
    case CutShort => from.Swept? && to.Watched?
    case Opened(_, _) => from.Watched? && to.Playing?
    case Continued => from.Watched? && to.Playing?
    case FrameFailed => from.Playing? && to.Between?
    case FramePlayed => from.Playing? && to.Between?
    case Completed => from.Playing? && to.Between?
    case Rebooted => true
  }

  // ---- Each step has one of the effects ----

  lemma WatchEffect(p: Pipeline, now: real) returns (e: Effect)
    requires Coherent(p)
    ensures Has(e, p, AfterWatchdog(p, now).(slot := p.slot + 1)) && (e.NewSlot? || e.CutShort?)
    ensures e.CutShort? <==> p.bursts != [] && now > p.bursts[0].deadline
    ensures AfterWatchdog(p, now).cache == if e.CutShort? then p.cache - {p.bursts[0].id} else p.cache
  {
    if p.bursts == [] { return NewSlot; }
    var b := p.bursts[0];
    assert p.bursts == [b] && b in p.bursts;
    if now > b.deadline {
      assert LateIds(p.bursts, now) == {b.id};
      assert AbandonAll(p.rows, {b.id}) == SetState(p.rows, b.id, Abandoned);
      FilterNone(p.bursts, InTime(now));
      e := CutShort;
    } else {
      assert LateIds(p.bursts, now) == {};
      FilterAll(p.bursts, InTime(now));
      e := NewSlot;
    }
  }

  lemma AdvanceEffect(encode: Encoder, p: Pipeline, held: set<nat>, pick: Option<nat>, env: SlotEnv)
    returns (e: Effect)
    requires Coherent(p) && (pick.Some? ==> pick.value in p.rows) && (p.bursts == [] ==> Picks(p.rows, pick))
    ensures var r := Proceed(encode, p, held, pick, env);
      && Has(e, p, r.p) && (e.Quiet? || e.Opened? || e.Continued?) && (r.sending <==> !e.Quiet?)
      && (e.Quiet? ==> p.bursts == [])
      && (e.Opened? ==> AudioFor(encode, p, e.burst.id) == Some(e.burst.frames)
                        && e.burst.deadline == env.startNow + |e.burst.frames| as real * WATCHDOG_PER_FRAME)
  {
    CoherentLives(p);
    if p.bursts != [] { return Continued; }
    if pick.None? || pick.value in held || !env.gateOk { return Quiet; }
    var frames := AudioFor(encode, p, pick.value);
    if frames.None? || !env.startOk { return Quiet; }
    e := Opened(Burst(pick.value, frames.value, 0, env.startNow + |frames.value| as real * WATCHDOG_PER_FRAME),
                env.markNow);
  }

  lemma FinishEffect(p: Pipeline, ok: bool) returns (e: Effect)
    requires Coherent(p) && p.bursts != [] && p.bursts[0] in p.bursts
    ensures Has(e, p, AfterFinish(p, ok)) && (e.FrameFailed? || e.FramePlayed? || e.Completed?)
  {
    assert p.bursts[1..] == [];
    if !ok {
      e := FrameFailed;
    } else if p.bursts[0].next + 1 < |p.bursts[0].frames| {
      e := FramePlayed;
    } else {
      assert p.air + [Played] + [Release] == p.air + [Played, Release];
      e := Completed;
    }
  }

  lemma StateQuiet(t: Table, id: nat, state: State)
    requires id in t && !t[id].state.Sending? && !state.Sending?
    requires Complete(t[id].(state := state)) ==> Complete(t[id])
    ensures Undisturbed(t, SetState(t, id, state))
  {
  }

  lemma SweepQuiet(t: Table, now: real)
    ensures Undisturbed(t, AckSwept(t, now))
  {
  }

  /** Nothing about the transmission, whatever the phase. */
  ghost predicate StaysQuiet(s: System, t: System) {
    Has(Quiet, s.p, t.p) && PhaseFits(Quiet, s.p, s.phase, t.phase)
  }

  lemma StoreQuiet(encode: Encoder, s: System)
    requires s.worker.Rendering? && s.worker.id in s.p.rows && s.p.rows[s.worker.id].state.Encoding?
    ensures StaysQuiet(s, StoredBy(encode, s))
  {
    StateQuiet(s.p.rows, s.worker.id, Abandoned);
  }

  lemma MarkQuiet(s: System)
    requires s.worker.Stored? && s.worker.id in s.p.rows && s.p.rows[s.worker.id].state.Encoding?
    ensures StaysQuiet(s, MarkedBy(s))
  {
    StateQuiet(s.p.rows, s.worker.id, Queued);
  }

  lemma NewRowQuiet(t: Table, id: nat, r: Row)
    requires id !in t && (r.state.Queued? || r.state.Encoding?)
    ensures Undisturbed(t, t[id := r])
  {
  }

  lemma EnqueueQuiet(s: System, d: Draft, direct: bool)
    requires s.nextId !in s.p.rows
    ensures StaysQuiet(s, Enqueued(s, d, direct))
  {
    NewRowQuiet(s.p.rows, s.nextId, Row(d, if direct then Queued else Encoding, 0, None));
  }

  lemma SweptQuiet(s: System, now: real)
    requires s.phase.Between?
    ensures StaysQuiet(s, SweptAt(s, now))
  {
    SweepQuiet(s.p.rows, now);
  }

  lemma AckedQuiet(s: System, found: Option<nat>)
    requires found.Some? ==> found.value in s.p.rows && s.p.rows[found.value].state.WaitAck?
    ensures StaysQuiet(s, Acked(s, found))
  {
    if found.Some? { StateQuiet(s.p.rows, found.value, Delivered); }
  }

  lemma QuietEffect(encode: Encoder, s: System, a: Action)
    requires Sound(s) && Enabled(s, a)
    requires !a.Watch? && !a.Advance? && !a.Finish? && !a.Restart?
    ensures StaysQuiet(s, Next(encode, s, a))
  {
    match a
    case Enqueue(d, direct) => EnqueueQuiet(s, d, direct);
    case WorkerPick(_) =>
    case WorkerStore => StoreQuiet(encode, s);
    case WorkerMark => MarkQuiet(s);
    case Sweep(now) => SweptQuiet(s, now);
    case Ack(_, found) => AckedQuiet(s, found);
    case Discard =>
    case _ =>
  }

  lemma StepEffect(encode: Encoder, s: System, a: Action) returns (e: Effect)
    requires Sound(s) && Enabled(s, a)
    ensures Has(e, s.p, Next(encode, s, a).p) && PhaseFits(e, s.p, s.phase, Next(encode, s, a).phase)
    ensures match a
      case Watch(_) => e.NewSlot? || e.CutShort?
      case Advance(_, _) => e.Quiet? || e.Opened? || e.Continued?
      case Finish(_) => e.FrameFailed? || e.FramePlayed? || e.Completed?
      case Restart => e.Rebooted?
      case _ => e.Quiet?
  {
    if a.Watch? {
      e := WatchEffect(s.p, a.now);
    } else if a.Advance? {
      e := AdvanceEffect(encode, s.p, s.phase.held, a.pick, a.env);
    } else if a.Finish? {
      assert s.p.bursts[0] in s.p.bursts;
      e := FinishEffect(s.p, a.ok);
    } else if a.Restart? {
      e := Rebooted;
    } else {
      e := Quiet;
      QuietEffect(encode, s, a);
    }
  }

  // ---- Only the worker moves rows that are being encoded ----

  ghost predicate KeepsEncoding(t: Table, u: Table) {
    forall id :: id in t && t[id].state.Encoding? ==> id in u && u[id] == t[id]
  }

  lemma EffectKeepsEncoding(e: Effect, p: Pipeline, q: Pipeline)
    requires Coherent(p) && Has(e, p, q) && !e.Quiet? && !e.Rebooted?
    ensures KeepsEncoding(p.rows, q.rows)
  {
    if p.bursts != [] { assert p.bursts[0] in p.bursts; }
  }

  lemma SweepKeepsEncoding(t: Table, now: real)
    ensures KeepsEncoding(t, AckSwept(t, now))
  {
  }

  lemma EncodingStays(encode: Encoder, s: System, a: Action)
    requires Sound(s) && Enabled(s, a) && !a.WorkerStore? && !a.WorkerMark? && !a.Restart?
    ensures KeepsEncoding(s.p.rows, Next(encode, s, a).p.rows)
  {
    match a
    case Sweep(now) => SweepKeepsEncoding(s.p.rows, now);
    case Watch(now) =>
      var e := WatchEffect(s.p, now);
      EffectKeepsEncoding(e, s.p, WatchedAt(s, now).p);
    case Advance(pick, env) => AdvanceKeepsEncoding(encode, s.p, s.phase.held, pick, env);
    case Finish(ok) =>
      assert s.p.bursts[0] in s.p.bursts;
      var e := FinishEffect(s.p, ok);
      EffectKeepsEncoding(e, s.p, Finished(s, ok).p);
    case _ =>
  }

  lemma AdvanceKeepsEncoding(encode: Encoder, p: Pipeline, held: set<nat>, pick: Option<nat>, env: SlotEnv)
    requires Coherent(p) && (pick.Some? ==> pick.value in p.rows) && (p.bursts == [] ==> Picks(p.rows, pick))
    ensures KeepsEncoding(p.rows, Proceed(encode, p, held, pick, env).p.rows)
  {
    CoherentLives(p);
  }
}
