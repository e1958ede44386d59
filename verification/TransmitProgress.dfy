/** Progress of the transmit side: a rank that falls on every step that does
    anything, and the scheduler's tick as a run of such steps. */
module TransmitProgress {
  import opened Text
  import opened Outbound
  import opened Transmit
  import opened Scheduler
  import opened TransmitRuns
  import opened TransmitEffects
  import opened TransmitInvariants
  import opened TransmitAir
  import opened TransmitLaws

  // ---- The rank ----

  function Frames(encode: Encoder, r: Row): nat {
    match encode(r.draft.text) case Some(frames) => |frames| case None => 0
  }

  /** The steps that one more attempt can take. */
  function PerAttempt(n: nat): nat { 2 * n + 3 }

  function AttemptsLeft(n: nat, tries: nat): nat
    decreases tries, n
  {
    if tries == 0 then 0 else PerAttempt(n) + AttemptsLeft(n, tries - 1)
  }

  /** The worker's steps left for a row that is being encoded. */
  function WorkLeft(w: Worker, id: nat): nat {
    if w == Stored(id) then 1 else if w == Rendering(id) then 2 else 3
  }

  /** The starts and ends of frames left in a row's transmission. */
  function FramesLeft(p: Pipeline, phase: Phase, id: nat): nat {
    if p.bursts != [] && p.bursts[0].id == id && p.bursts[0].next < |p.bursts[0].frames|
    then 2 * (|p.bursts[0].frames| - p.bursts[0].next) - (if phase.Playing? then 1 else 0)
    else 0
  }

  function RowRank(n: nat, r: Row, work: nat, frames: nat): nat {
    var tries := if r.attempts < MAX_ATTEMPTS then MAX_ATTEMPTS - r.attempts else 0;
    match r.state
    case Encoding => AttemptsLeft(n, tries) + work
    case Queued => AttemptsLeft(n, tries)
    case Sending => AttemptsLeft(n, tries) + 2 + frames
    case WaitAck => AttemptsLeft(n, tries) + 1
    case Delivered => 0
    case Abandoned => 0
  }

  function RankOf(encode: Encoder, s: System, id: nat): nat {
    if id !in s.p.rows then 0
    else RowRank(Frames(encode, s.p.rows[id]), s.p.rows[id], WorkLeft(s.worker, id), FramesLeft(s.p, s.phase, id))
  }

  function RankBelow(encode: Encoder, s: System, k: nat): nat
    decreases k, s
  {
    if k == 0 then 0 else RankOf(encode, s, k - 1) + RankBelow(encode, s, k - 1)
  }

  function Rank(encode: Encoder, s: System): nat { RankBelow(encode, s, s.nextId) }

  // ---- One row ----

  lemma MoveLowers(n: nat, r: Row, u: Row, work: nat, work': nat, frames: nat, frames': nat)
    requires Moves(r, u) && u != r && AttemptsFit(r) && 0 < work
    requires u.state.Sending? ==> frames' < 2 * n
    ensures RowRank(n, u, work', frames') < RowRank(n, r, work, frames)
  {
    if r.attempts < MAX_ATTEMPTS {
      assert AttemptsLeft(n, MAX_ATTEMPTS - r.attempts)
          == PerAttempt(n) + AttemptsLeft(n, MAX_ATTEMPTS - r.attempts - 1);
    }
  }

  lemma FramesLeftKept(e: Effect, p: Pipeline, q: Pipeline, from: Phase, to: Phase, id: nat)
    requires Coherent(p) && OneSender(p) && Has(e, p, q) && PhaseFits(e, p, from, to)
    requires id in p.rows && id in q.rows && p.rows[id].state.Sending? && q.rows[id].state.Sending?
    ensures FramesLeft(q, to, id) <= FramesLeft(p, from, id)
    ensures e.Continued? || e.FramePlayed? ==> FramesLeft(q, to, id) < FramesLeft(p, from, id)
  {
    assert p.bursts[0] in p.bursts;
  }

  lemma OpenedLeft(encode: Encoder, e: Effect, p: Pipeline, q: Pipeline, from: Phase, to: Phase, id: nat)
    requires Coherent(p) && Has(e, p, q) && PhaseFits(e, p, from, to) && FramesAre(encode, q)
    requires id in p.rows && id in q.rows && p.rows[id].draft == q.rows[id].draft
    requires !p.rows[id].state.Sending? && q.rows[id].state.Sending?
    ensures FramesLeft(q, to, id) < 2 * Frames(encode, q.rows[id])
  {
    assert e.Opened? && q.bursts[0] in q.bursts;
  }

  /** Only the worker's own steps change what is left for it to do. */
  lemma WorkLeftKept(encode: Encoder, s: System, a: Action)
    requires Sound(s) && Enabled(s, a) && !a.Restart?
    ensures var t := Next(encode, s, a);
      (forall id :: id in s.p.rows && id in t.p.rows && s.p.rows[id].state.Encoding? && t.p.rows[id].state.Encoding? ==>
         WorkLeft(t.worker, id) <= WorkLeft(s.worker, id))
      && (t.worker != s.worker && t.p.rows == s.p.rows ==>
            WorkDone(s, t, if a.WorkerPick? then a.id else if s.worker.Resting? then 0 else s.worker.id))
  {
  }

  /** The worker has moved on with this row. */
  ghost predicate WorkDone(s: System, t: System, id: nat) {
    id in s.p.rows && s.p.rows[id].state.Encoding? && WorkLeft(t.worker, id) < WorkLeft(s.worker, id)
  }

  /** Whether a step is about this row. */
  ghost predicate Touches(s: System, t: System, e: Effect, id: nat) {
    id in s.p.rows && id in t.p.rows
    && (t.p.rows[id] != s.p.rows[id] || WorkDone(s, t, id)
        || ((e.Continued? || e.FramePlayed?) && s.p.bursts != [] && s.p.bursts[0].id == id))
  }

  lemma RankOfKept(encode: Encoder, s: System, t: System, e: Effect, id: nat)
    requires Coherent(s.p) && OneSender(s.p) && FramesAre(encode, t.p)
    requires Has(e, s.p, t.p) && PhaseFits(e, s.p, s.phase, t.phase)
    requires id in s.p.rows && id in t.p.rows && AttemptsFit(s.p.rows[id]) && Moves(s.p.rows[id], t.p.rows[id])
    requires s.p.rows[id].state.Encoding? && t.p.rows[id].state.Encoding? ==>
      WorkLeft(t.worker, id) <= WorkLeft(s.worker, id)
    ensures RankOf(encode, t, id) <= RankOf(encode, s, id)
    ensures Touches(s, t, e, id) ==> RankOf(encode, t, id) < RankOf(encode, s, id)
  {
    var r, u := s.p.rows[id], t.p.rows[id];
    if u != r {
      if u.state.Sending? && !r.state.Sending? { OpenedLeft(encode, e, s.p, t.p, s.phase, t.phase, id); }
      MoveLowers(Frames(encode, r), r, u, WorkLeft(s.worker, id), WorkLeft(t.worker, id),
                 FramesLeft(s.p, s.phase, id), FramesLeft(t.p, t.phase, id));
    } else if r.state.Sending? {
      FramesLeftKept(e, s.p, t.p, s.phase, t.phase, id);
    } else if s.p.bursts != [] {
      assert s.p.bursts[0] in s.p.bursts;
    }
  }

  // ---- The whole table ----

  lemma {:induction false} RankBelowKept(encode: Encoder, s: System, t: System, k: nat)
    requires forall id: nat :: id < k ==> RankOf(encode, t, id) <= RankOf(encode, s, id)
    ensures RankBelow(encode, t, k) <= RankBelow(encode, s, k)
    ensures (exists id: nat :: id < k && RankOf(encode, t, id) < RankOf(encode, s, id)) ==>
      RankBelow(encode, t, k) < RankBelow(encode, s, k)
  {
    if k > 0 {
      RankBelowKept(encode, s, t, k - 1);
    }
  }

  /** Nothing changed: not the table, not the worker's row, not the burst, and
      nothing went on the air. */
  ghost predicate Idle(s: System, t: System) {
    t.p.rows == s.p.rows && t.worker == s.worker && t.p.bursts == s.p.bursts && t.p.air == s.p.air
  }

  lemma NotIdle(s: System, t: System, e: Effect, worked: nat) returns (id: nat)
    requires Coherent(s.p) && Has(e, s.p, t.p) && t.p.rows.Keys == s.p.rows.Keys && !e.Rebooted?
    requires t.worker != s.worker && t.p.rows == s.p.rows ==> WorkDone(s, t, worked)
    requires !Idle(s, t)
    ensures Touches(s, t, e, id)
  {
    if other :| other in s.p.rows && t.p.rows[other] != s.p.rows[other] { return other; }
    assert t.p.rows == s.p.rows;
    if t.worker != s.worker { return worked; }
    if s.p.bursts != [] { assert s.p.bursts[0] in s.p.bursts; }
    id := s.p.bursts[0].id;
  }

  /** Between enqueues and restarts every step lowers the rank or is idle. */
  lemma RankFalls(encode: Encoder, s: System, a: Action)
    requires Inv(encode, s) && Enabled(s, a) && !a.Enqueue? && !a.Restart?
    ensures Rank(encode, Next(encode, s, a)) <= Rank(encode, s)
    ensures !Idle(s, Next(encode, s, a)) ==> Rank(encode, Next(encode, s, a)) < Rank(encode, s)
  {
    var t := Next(encode, s, a);
    var e := StepEffect(encode, s, a);
    StepFollows(encode, s, a);
    TransmitAudio.FramesAreKept(encode, s, a);
    SameBirths(encode, s, a);
    WorkLeftKept(encode, s, a);
    var worked := if a.WorkerPick? then a.id else if s.worker.Resting? then 0 else s.worker.id;
    RankTogether(encode, s, t, e, worked);
  }

  lemma RankTogether(encode: Encoder, s: System, t: System, e: Effect, worked: nat)
    requires Sound(s) && Ledger(s) && OneSender(s.p) && FramesAre(encode, t.p) && t.nextId == s.nextId
    requires Has(e, s.p, t.p) && PhaseFits(e, s.p, s.phase, t.phase) && !e.Rebooted? && Follows(s.p.rows, t.p.rows)
    requires forall id :: id in s.p.rows && s.p.rows[id].state.Encoding? && t.p.rows[id].state.Encoding? ==>
      WorkLeft(t.worker, id) <= WorkLeft(s.worker, id)
    requires t.worker != s.worker && t.p.rows == s.p.rows ==> WorkDone(s, t, worked)
    ensures Rank(encode, t) <= Rank(encode, s)
    ensures !Idle(s, t) ==> Rank(encode, t) < Rank(encode, s)
  {
    forall id: nat | id in s.p.rows
      ensures RankOf(encode, t, id) <= RankOf(encode, s, id)
      ensures Touches(s, t, e, id) ==> RankOf(encode, t, id) < RankOf(encode, s, id)
    {
      RankOfKept(encode, s, t, e, id);
    }
    RankBelowKept(encode, s, t, s.nextId);
    if !Idle(s, t) {
      var id := NotIdle(s, t, e, worked);
      assert id < s.nextId && RankOf(encode, t, id) < RankOf(encode, s, id);
    }
  }

  /** The steps of a run that are not idle. */
  ghost function Busy(encode: Encoder, s: System, run: seq<Action>): nat
    requires Possible(encode, s, run)
    decreases |run|
  {
    if run == [] then 0
    else
      var t := Next(encode, s, run[0]);
      (if Idle(s, t) then 0 else 1) + Busy(encode, t, run[1..])
  }

  /** With nothing enqueued and no restart, the daemon goes quiet: no run does
      more than the rank it starts from. */
  lemma {:induction false} GoesQuiet(encode: Encoder, s: System, run: seq<Action>)
    requires Inv(encode, s) && Possible(encode, s, run)
    requires forall a :: a in run ==> !a.Enqueue? && !a.Restart?
    ensures Busy(encode, s, run) + Rank(encode, After(encode, s, run)) <= Rank(encode, s)
    decreases |run|
  {
    if run != [] {
      RankFalls(encode, s, run[0]);
      InvKept(encode, s, run[0]);
      GoesQuiet(encode, Next(encode, s, run[0]), run[1..]);
    }
  }

  // ---- The objects take these steps ----

  /** Each step of the slot leaves the next one possible. */
  lemma SweepLeadsOn(encode: Encoder, s: System, now: real)
    requires Sound(s) && Ledger(s) && s.phase.Between?
    ensures Next(encode, s, Sweep(now)) == SweptAt(s, now) && Sound(SweptAt(s, now)) && Ledger(SweptAt(s, now))
    ensures SweptAt(s, now).p.rows.Keys == s.p.rows.Keys
  {
    SoundKept(encode, s, Sweep(now));
    LedgerKept(encode, s, Sweep(now));
  }

  lemma WatchLeadsOn(encode: Encoder, s: System, now: real)
    requires Sound(s) && Ledger(s) && s.phase.Swept?
    ensures Next(encode, s, Watch(now)) == WatchedAt(s, now) && Sound(WatchedAt(s, now))
    ensures WatchedAt(s, now).p.rows.Keys == s.p.rows.Keys
  {
    SoundKept(encode, s, Watch(now));
    LedgerKept(encode, s, Watch(now));
  }

  /** After the timeouts and the watchdog, the slot is ready to choose a row. */
  lemma SlotReady(encode: Encoder, s: System, pick: Option<nat>, env: SlotEnv)
    requires Sound(s) && Ledger(s) && s.phase.Between? && TickPicks(s.p, pick, env)
    ensures var w := WatchedAt(SweptAt(s, env.sweepNow), env.watchNow);
      && Sound(w) && Enabled(w, Advance(pick, env))
      && w.p == AfterWatchdog(AfterSweep(s.p, env.sweepNow), env.watchNow).(slot := s.p.slot + 1)
      && w.phase == Watched(Retried(s.p.rows, env.sweepNow))
  {
    SweepLeadsOn(encode, s, env.sweepNow);
    WatchLeadsOn(encode, SweptAt(s, env.sweepNow), env.watchNow);
  }

  lemma AdvanceIsProceed(encode: Encoder, s: System, pick: Option<nat>, env: SlotEnv, p: Pipeline, held: set<nat>)
    requires Sound(s) && Enabled(s, Advance(pick, env)) && s.phase == Watched(held)
    requires BurstsOpen(p) && (pick.Some? ==> pick.value in p.rows)
    requires s.p == AfterWatchdog(p, env.watchNow).(slot := p.slot + 1)
    ensures var u, r := Next(encode, s, Advance(pick, env)), AfterBegin(encode, p, held, pick, env);
      u.p == r.p && u.phase == if r.sending then Playing else Between
  {
    assert AfterBegin(encode, p, held, pick, env) == Proceed(encode, s.p, held, pick, env);
  }

  /** A tick of the scheduler that nothing interrupts is those steps, and the
      end of the frame if one was begun. */
  lemma TickIsItsSteps(encode: Encoder, s: System, pick: Option<nat>, env: SlotEnv)
    requires Sound(s) && Ledger(s) && s.phase.Between? && TickPicks(s.p, pick, env)
    ensures var w := WatchedAt(SweptAt(s, env.sweepNow), env.watchNow);
      && Sound(w) && Enabled(w, Advance(pick, env))
      && var u := Next(encode, w, Advance(pick, env));
         Sound(u) && (if u.phase.Playing? then Finished(u, env.frameOk) else u).p == AfterTick(encode, s.p, pick, env)
  {
    var p, held := AfterSweep(s.p, env.sweepNow), Retried(s.p.rows, env.sweepNow);
    var w := WatchedAt(SweptAt(s, env.sweepNow), env.watchNow);
    SlotReady(encode, s, pick, env);
    SweepCoherent(s.p, env.sweepNow);
    AdvanceIsProceed(encode, w, pick, env, p, held);
    AdvanceSound(encode, w, pick, env);
    TickUnfolds(encode, s.p, pick, env, Next(encode, w, Advance(pick, env)));
  }

  lemma AdvanceSound(encode: Encoder, s: System, pick: Option<nat>, env: SlotEnv)
    requires Sound(s) && Enabled(s, Advance(pick, env))
    ensures Sound(Next(encode, s, Advance(pick, env)))
  {
    var e := AdvanceEffect(encode, s.p, s.phase.held, pick, env);
    CoherentKept(e, s.p, Next(encode, s, Advance(pick, env)).p);
    WorkerRowKept(encode, s, Advance(pick, env));
  }

  lemma TickUnfolds(encode: Encoder, p: Pipeline, pick: Option<nat>, env: SlotEnv, u: System)
    requires Sound(u) && BurstsOpen(p) && (pick.Some? ==> pick.value in p.rows)
    requires var r := AfterBegin(encode, AfterSweep(p, env.sweepNow), Retried(p.rows, env.sweepNow), pick, env);
      u.p == r.p && u.phase == if r.sending then Playing else Between
    ensures (if u.phase.Playing? then Finished(u, env.frameOk) else u).p == AfterTick(encode, p, pick, env)
  {
  }

  /** The worker's tick is its three steps, or two if the text does not encode. */
  lemma WorkerTickIsItsSteps(encode: Encoder, s: System, id: nat) returns (picked: System, stored: System, done: System)
    requires Sound(s) && s.worker.Resting? && Oldest(s.p.rows, Encoding, id)
    ensures Enabled(s, WorkerPick(id)) && picked == Next(encode, s, WorkerPick(id))
    ensures Sound(picked) && Enabled(picked, WorkerStore) && stored == Next(encode, picked, WorkerStore)
    ensures if stored.worker.Stored? then Sound(stored) && done == Next(encode, stored, WorkerMark) else done == stored
    ensures done.worker.Resting?
    ensures match encode(s.p.rows[id].draft.text)
      case Some(frames) => done.p == s.p.(cache := s.p.cache[id := frames], rows := SetState(s.p.rows, id, Queued))
      case None => done.p == s.p.(rows := SetState(s.p.rows, id, Abandoned))
  {
    picked := Next(encode, s, WorkerPick(id));
    stored := Next(encode, picked, WorkerStore);
    done := if stored.worker.Stored? then Next(encode, stored, WorkerMark) else stored;
  }
}
